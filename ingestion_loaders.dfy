/**
 * The loaders behind the ingestion service's dispatchers: the tracker query and its
 * record normaliser, the JSON issue file, and the three previous-release loaders
 * (forge listing, local release files, CHANGELOG.md).
 */
module IngestionLoaders {
  import opened Outcomes
  import opened Errors
  import opened Environment
  import opened Text
  import opened JsonValue
  import opened Records
  import opened Paging

  // ---------------------------------------------------------------- tracker issues

  /** The tracker settings read from the environment when the service is built. */
  datatype JiraConfig = JiraConfig(
    baseUrl: Option<string>, username: Option<string>, apiToken: Option<string>, projectKey: Option<string>)

  /** `_load_jira_config`: the four JIRA_* variables. */
  function LoadJiraConfig(env: Env): JiraConfig {
    JiraConfig(Getenv(env, "JIRA_BASE_URL"), Getenv(env, "JIRA_USERNAME"),
      Getenv(env, "JIRA_API_TOKEN"), Getenv(env, "JIRA_PROJECT_KEY"))
  }

  /** The tracker is asked only when base URL, user name and token are all non-empty. */
  predicate JiraReady(c: JiraConfig) {
    Given(c.baseUrl) && Given(c.username) && Given(c.apiToken)
  }

  /** Python's f-string rendering of an optional string. */
  function PyStr(o: Option<string>): string {
    if o.Some? then o.value else "None"
  }

  function ProjectClause(projectKey: Option<string>): string {
    "project = \"" + PyStr(projectKey) + "\""
  }

  function StatusClause(status: string): string {
    "status = \"" + status + "\""
  }

  function SinceClause(since: string): string {
    "updated >= \"" + since + "\""
  }

  /** The JQL clauses: the project, the status when non-empty, the update bound when given. */
  function JqlParts(projectKey: Option<string>, status: string, since: Option<string>): seq<string> {
    [ProjectClause(projectKey)]
    + (if status != "" then [StatusClause(status)] else [])
    + (if Given(since) then [SinceClause(since.value)] else [])
  }

  /** The JQL query: the clauses joined by " AND ". */
  function Jql(projectKey: Option<string>, status: string, since: Option<string>): string {
    Join(JqlParts(projectKey, status, since), " AND ")
  }

  /**
   * The query is the project clause, followed by " AND " and the status clause exactly when
   * a status is given, then by " AND " and the update bound exactly when a date is given.
   */
  lemma JqlText(projectKey: Option<string>, status: string, since: Option<string>)
    ensures Jql(projectKey, status, since) ==
      ProjectClause(projectKey)
      + (if status != "" then " AND " + StatusClause(status) else "")
      + (if Given(since) then " AND " + SinceClause(since.value) else "")
  {
    var p := ProjectClause(projectKey);
    var sep := " AND ";
    if status != "" && Given(since) {
      var s, u := StatusClause(status), SinceClause(since.value);
      assert JqlParts(projectKey, status, since) == [p] + [s, u];
      JoinCons(p, [s, u], sep);
      assert [s, u] == [s] + [u];
      JoinCons(s, [u], sep);
      assert p + sep + (s + sep + u) == p + (sep + s) + (sep + u);
    } else if status != "" {
      var s := StatusClause(status);
      assert JqlParts(projectKey, status, since) == [p] + [s];
      JoinCons(p, [s], sep);
    } else if Given(since) {
      var u := SinceClause(since.value);
      assert JqlParts(projectKey, status, since) == [p] + [u];
      JoinCons(p, [u], sep);
    } else {
      assert JqlParts(projectKey, status, since) == [p];
    }
  }

  /** The search request: the JQL, up to 1000 results and the fixed field list. */
  function JiraRequest(baseUrl: string, jql: string): Request {
    Request(baseUrl + "/rest/api/3/search", map[
      "jql" := PStr(jql), "maxResults" := PInt(1000),
      "fields" := PStr("summary,description,status,priority,assignee,created,updated,fixVersions,labels")])
  }

  /**
   * `[label for label in fields.get('labels', [])]`: a list is copied, a string gives its
   * characters and a dict its keys in the order the document listed them (`keyOrder`);
   * null, numbers and booleans are not iterable and raise.
   */
  function LabelList(labels: Json, keyOrder: map<string, Json> -> seq<string>): (r: Result<seq<Json>, Error>)
    ensures r.Err? <==> (labels.JNull? || labels.JBool? || labels.JInt?)
    ensures labels.JArr? ==> r == Ok(labels.items)
    ensures labels.JStr? ==> r.Ok? && |r.value| == |labels.s|
    ensures labels.JStr? ==> forall i :: 0 <= i < |labels.s| ==> r.value[i] == JStr([labels.s[i]])
    ensures labels.JObj? ==> r.Ok? && |r.value| == |keyOrder(labels.fields)|
    ensures labels.JObj? ==> forall i :: 0 <= i < |r.value| ==> r.value[i] == JStr(keyOrder(labels.fields)[i])
  {
    match labels
    case JArr(xs) => Ok(xs)
    case JStr(s) => Ok(seq(|s|, i requires 0 <= i < |s| => JStr([s[i]])))
    case JObj(fs) =>
      var ks := keyOrder(fs);
      Ok(seq(|ks|, i requires 0 <= i < |ks| => JStr(ks[i])))
    case _ => Err(TypeError("object is not iterable"))
  }

  /**
   * One tracker record in the standard issue shape. A record that is not a dict, whose
   * `fields` or `status` is not a dict, whose labels are not iterable or whose truthy
   * assignee is not a dict raises.
   */
  function JiraIssue(item: Json, baseUrl: string, keyOrder: map<string, Json> -> seq<string>): Result<Json, Error> {
    if !item.JObj? then Err(AttributeError("object has no attribute 'get'"))
    else
      var key := Field(item.fields, "key", JNull);
      var fields := Field(item.fields, "fields", JObj(map[]));
      if !fields.JObj? then Err(AttributeError("object has no attribute 'get'"))
      else
        var f := fields.fields;
        var status := Field(f, "status", JObj(map[]));
        var labels := LabelList(Field(f, "labels", JArr([])), keyOrder);
        var assignee := Field(f, "assignee", JNull);
        if !status.JObj? then Err(AttributeError("object has no attribute 'get'"))
        else if labels.Err? then Err(labels.error)
        else if Truthy(assignee) && !assignee.JObj? then Err(AttributeError("object has no attribute 'get'"))
        else
          Ok(JObj(map[
            "id" := key,
            "number" := key,
            "title" := Field(f, "summary", JStr("")),
            "body" := Field(f, "description", JStr("")),
            "state" := Field(status.fields, "name", JStr("")),
            "labels" := JArr(labels.value),
            "assignee" := (if Truthy(assignee) then Field(assignee.fields, "displayName", JNull) else JNull),
            "created_at" := Field(f, "created", JNull),
            "updated_at" := Field(f, "updated", JNull),
            "closed_at" := Field(f, "updated", JNull),
            "url" := JStr(baseUrl + "/browse/" + Str(key)),
            "source" := JStr("jira")]))
  }

  /** A search result with dict `fields`, a dict status, a list of labels and no assignee. */
  predicate PlainJiraItem(item: Json) {
    && item.JObj? && "fields" in item.fields && item.fields["fields"].JObj?
    && var f := item.fields["fields"].fields;
    && "status" in f && f["status"].JObj? && "labels" in f && f["labels"].JArr? && "assignee" !in f
  }

  /**
   * A normalised record is a dict whose id and number are the tracker key, whose closing
   * time is the update time, whose link is the browse page of the key and whose source is
   * "jira".
   */
  lemma JiraIssueShape(item: Json, baseUrl: string, keyOrder: map<string, Json> -> seq<string>)
    ensures JiraIssue(item, baseUrl, keyOrder).Ok? ==>
      && item.JObj? && JiraIssue(item, baseUrl, keyOrder).value.JObj?
      && var key := Field(item.fields, "key", JNull);
      && var out := JiraIssue(item, baseUrl, keyOrder).value.fields;
      && "id" in out && out["id"] == key
      && "number" in out && out["number"] == key
      && "closed_at" in out && "updated_at" in out && out["closed_at"] == out["updated_at"]
      && "url" in out && out["url"] == JStr(baseUrl + "/browse/" + Str(key))
      && "source" in out && out["source"] == JStr("jira")
      && "labels" in out && out["labels"].JArr?
  {
  }

  /** A record with dict `fields`, a dict status, list labels and no assignee always normalises. */
  lemma PlainJiraItemNormalises(item: Json, baseUrl: string, keyOrder: map<string, Json> -> seq<string>)
    requires PlainJiraItem(item)
    ensures JiraIssue(item, baseUrl, keyOrder).Ok?
  {
  }

  /** The record normaliser for a tracker at `baseUrl`. */
  function JiraNormaliser(baseUrl: string, keyOrder: map<string, Json> -> seq<string>): Json -> Result<Json, Error> {
    item => JiraIssue(item, baseUrl, keyOrder)
  }

  /** The record loop of `_fetch_jira_issues`; the first record that raises ends it. */
  method NormaliseJiraItems(items: seq<Json>, baseUrl: string, keyOrder: map<string, Json> -> seq<string>) returns (r: Result<seq<Json>, Error>)
    ensures r == MapAll(items, JiraNormaliser(baseUrl, keyOrder))
  {
    var issues: seq<Json> := [];
    var i := 0;
    while i < |items|
      invariant 0 <= i <= |items|
      invariant MapAll(items[..i], JiraNormaliser(baseUrl, keyOrder)) == Ok(issues)
    {
      assert items[..i + 1][..i] == items[..i];
      var issue := JiraIssue(items[i], baseUrl, keyOrder);
      if issue.Err? {
        MapAllStopsAtError(items, i + 1, JiraNormaliser(baseUrl, keyOrder));
        return Err(issue.error);
      }
      issues := issues + [issue.value];
      i := i + 1;
    }
    assert items[..i] == items;
    r := Ok(issues);
  }

  /**
   * What `_fetch_jira_issues` returns for the search answer: [] when the configuration is
   * incomplete, and [] whenever anything raises (the request, a failing status, a body
   * without `.get`, an `issues` value that is not a list, a record that does not normalise).
   */
  function JiraOutcome(c: JiraConfig, answer: Result<Reply<Json>, Error>, keyOrder: map<string, Json> -> seq<string>): seq<Json> {
    if !JiraReady(c) || answer.Err? || FailingStatus(answer.value.status) then []
    else match Get(answer.value.body, "issues", JArr([]))
      case Err(_) => []
      case Ok(v) =>
        if !v.JArr? then []
        else match MapAll(v.items, JiraNormaliser(c.baseUrl.value, keyOrder))
          case Err(_) => []
          case Ok(issues) => issues
  }

  /**
   * `_fetch_jira_issues`: no request without a complete configuration; otherwise one
   * search with the JQL of the project, status and update bound. It never raises.
   */
  method FetchJiraIssues(
    c: JiraConfig, projectKey: Option<string>, since: Option<string>, status: string,
    answer: Result<Reply<Json>, Error>, keyOrder: map<string, Json> -> seq<string>)
    returns (issues: seq<Json>, sent: Option<Request>)
    ensures issues == JiraOutcome(c, answer, keyOrder)
    ensures sent.Some? <==> JiraReady(c)
    ensures JiraReady(c) ==> sent.value == JiraRequest(c.baseUrl.value, Jql(projectKey, status, since))
  {
    if !JiraReady(c) {
      return [], None;
    }
    var jql := Jql(projectKey, status, since);
    sent := Some(JiraRequest(c.baseUrl.value, jql));
    if answer.Err? || FailingStatus(answer.value.status) {
      return [], sent;
    }
    var list := Get(answer.value.body, "issues", JArr([]));
    if list.Err? || !list.value.JArr? {
      return [], sent;
    }
    var normalised := NormaliseJiraItems(list.value.items, c.baseUrl.value, keyOrder);
    if normalised.Err? {
      return [], sent;
    }
    issues := normalised.value;
  }

  // ---------------------------------------------------------------- JSON issue file

  /**
   * `_load_json_issues`: no path gives []; a top-level list is returned as it is, a dict
   * with `issues` gives that value; any other document, or a file that cannot be read
   * or decoded (`read` is the open-and-decode step), gives [].
   */
  function LoadJsonIssues(jsonFile: Option<string>, read: string -> Result<Json, Error>): (r: Json)
    ensures !Given(jsonFile) ==> r == JArr([])
    ensures Given(jsonFile) && read(jsonFile.value).Ok? && read(jsonFile.value).value.JArr? ==>
      r == read(jsonFile.value).value
    ensures (Given(jsonFile) && read(jsonFile.value).Ok? && read(jsonFile.value).value.JObj? &&
      "issues" in read(jsonFile.value).value.fields) ==> r == read(jsonFile.value).value.fields["issues"]
    ensures r != JArr([]) ==>
      && Given(jsonFile) && read(jsonFile.value).Ok?
      && (read(jsonFile.value).value.JArr? || read(jsonFile.value).value.JObj?)
  {
    if !Given(jsonFile) then JArr([])
    else match read(jsonFile.value)
      case Err(_) => JArr([])
      case Ok(data) =>
        if data.JArr? then data
        else if data.JObj? && "issues" in data.fields then data.fields["issues"]
        else JArr([])
  }

  // ---------------------------------------------------------------- forge releases

  /** A release the forge loader keeps: another tag than the current version, not a draft. */
  predicate ForgeKeeps(a: ApiRelease, currentVersion: Option<string>) {
    Some(a.tagName) != currentVersion && a.draft != Some(true)
  }

  /** The record the forge loader builds from a listed release. */
  function ForgeRecord(a: ApiRelease): Release {
    Release(Some(a.tagName), a.name, a.body, a.publishedAt, Some(a.htmlUrl), "github")
  }

  /** The forge loader's loop: a kept release is appended while fewer than `count` are held. */
  function ForgeRecords(items: seq<ApiRelease>, currentVersion: Option<string>, count: int): seq<Release>
    decreases |items|
  {
    if items == [] then []
    else
      var done := ForgeRecords(items[..|items| - 1], currentVersion, count);
      var last := items[|items| - 1];
      if ForgeKeeps(last, currentVersion) && |done| < count then done + [ForgeRecord(last)] else done
  }

  /** Every kept release in listing order, without a bound. */
  function EligibleRecords(items: seq<ApiRelease>, currentVersion: Option<string>): seq<Release>
    decreases |items|
  {
    if items == [] then []
    else
      var last := items[|items| - 1];
      EligibleRecords(items[..|items| - 1], currentVersion)
      + (if ForgeKeeps(last, currentVersion) then [ForgeRecord(last)] else [])
  }

  /** The forge loader returns the first `count` kept releases, in listing order. */
  lemma {:induction false} ForgeRecordsAreFirstEligible(items: seq<ApiRelease>, currentVersion: Option<string>, count: nat)
    ensures ForgeRecords(items, currentVersion, count) == SliceTo(EligibleRecords(items, currentVersion), count)
    decreases |items|
  {
    if items != [] {
      var init := items[..|items| - 1];
      ForgeRecordsAreFirstEligible(init, currentVersion, count);
      var e := EligibleRecords(init, currentVersion);
      var last := items[|items| - 1];
      if ForgeKeeps(last, currentVersion) {
        var e' := e + [ForgeRecord(last)];
        assert EligibleRecords(items, currentVersion) == e';
        if |e| < count {
          assert SliceTo(e, count) == e;
        } else {
          assert e'[..count] == e[..count];
        }
      }
    }
  }

  /** The listing request: `per_page` is twice the count. */
  function ForgeReleasesRequest(repo: string, count: int): Request {
    Request("https://api.github.com/repos/" + repo + "/releases", map["per_page" := PInt(count * 2)])
  }

  /**
   * What `_fetch_github_releases` returns: [] without a token or a repository, and []
   * whenever the request raises or fails; otherwise the kept records. It never raises.
   */
  function ForgeReleases(
    repo: Option<string>, token: Option<string>, count: int, currentVersion: Option<string>,
    answer: Result<Reply<seq<ApiRelease>>, Error>): seq<Release>
  {
    if !Given(token) || !Given(repo) || answer.Err? || FailingStatus(answer.value.status) then []
    else ForgeRecords(answer.value.body, currentVersion, count)
  }

  /** The forge loader returns no more than `count` releases. */
  lemma ForgeBound(
    repo: Option<string>, token: Option<string>, count: int, currentVersion: Option<string>,
    answer: Result<Reply<seq<ApiRelease>>, Error>)
    ensures count >= 0 ==> |ForgeReleases(repo, token, count, currentVersion, answer)| <= count
  {
    if count >= 0 && Given(token) && Given(repo) && answer.Ok? && !FailingStatus(answer.value.status) {
      ForgeRecordsAreFirstEligible(answer.value.body, currentVersion, count);
    }
  }

  /** The `for release in releases:` loop of `_fetch_github_releases`. */
  method FilterForgeReleases(items: seq<ApiRelease>, currentVersion: Option<string>, count: int)
    returns (filtered: seq<Release>)
    ensures filtered == ForgeRecords(items, currentVersion, count)
  {
    filtered := [];
    var i := 0;
    while i < |items|
      invariant 0 <= i <= |items|
      invariant filtered == ForgeRecords(items[..i], currentVersion, count)
    {
      assert items[..i + 1][..i] == items[..i];
      if ForgeKeeps(items[i], currentVersion) && |filtered| < count {
        filtered := filtered + [ForgeRecord(items[i])];
      }
      i := i + 1;
    }
    assert items[..i] == items;
  }

  /** `_fetch_github_releases`: one request when a token and a repository are present. */
  method FetchForgeReleases(
    repo: Option<string>, token: Option<string>, count: int, currentVersion: Option<string>,
    answer: Result<Reply<seq<ApiRelease>>, Error>)
    returns (releases: seq<Release>, sent: Option<Request>)
    ensures releases == ForgeReleases(repo, token, count, currentVersion, answer)
    ensures sent.Some? <==> Given(token) && Given(repo)
    ensures sent.Some? ==> sent.value == ForgeReleasesRequest(repo.value, count)
  {
    if !Given(token) || !Given(repo) {
      return [], None;
    }
    sent := Some(ForgeReleasesRequest(repo.value, count));
    if answer.Err? || FailingStatus(answer.value.status) {
      return [], sent;
    }
    releases := FilterForgeReleases(answer.value.body, currentVersion, count);
  }

  // ---------------------------------------------------------------- local release files

  /**
   * A file matched by `examples/release_*.md`: its stem, its modification time and the
   * outcome of reading it as text.
   */
  datatype ReleaseFile = ReleaseFile(stem: string, mtime: int, content: Result<string, Error>)

  /** Newest first: each file is at least as recent as the one after it. */
  predicate NewestFirst(fs: seq<ReleaseFile>) {
    forall i :: 0 < i < |fs| ==> fs[i - 1].mtime >= fs[i].mtime
  }

  /** Places `f` before the first file that is not newer, so earlier equal files stay first. */
  function InsertByMtime(f: ReleaseFile, fs: seq<ReleaseFile>): (r: seq<ReleaseFile>)
    requires NewestFirst(fs)
    ensures NewestFirst(r)
    ensures multiset(r) == multiset(fs) + multiset{f}
    ensures r != [] && (r[0] == f || (fs != [] && r[0] == fs[0]))
    decreases |fs|
  {
    if fs == [] || fs[0].mtime <= f.mtime then [f] + fs
    else
      var rest := InsertByMtime(f, fs[1..]);
      assert fs == [fs[0]] + fs[1..];
      [fs[0]] + rest
  }

  /** `sorted(files, key=mtime, reverse=True)`: a stable ordering, newest first. */
  function SortNewestFirst(fs: seq<ReleaseFile>): (r: seq<ReleaseFile>)
    ensures NewestFirst(r)
    ensures multiset(r) == multiset(fs)
    decreases |fs|
  {
    if fs == [] then []
    else
      assert fs == [fs[0]] + fs[1..];
      InsertByMtime(fs[0], SortNewestFirst(fs[1..]))
  }

  /** The version of a release file: its stem with every "release_" removed. */
  function FileVersion(f: ReleaseFile): string {
    ReplaceAll(f.stem, "release_", "")
  }

  /** The title of a release file: its stripped first line with `#` and spaces trimmed. */
  function FileTitle(content: string): string {
    StripChars(Split(Strip(content), '\n')[0], {'#', ' '})
  }

  /** The record of a readable release file; `stamp` renders a modification time in ISO form. */
  function LocalRecord(f: ReleaseFile, stamp: int -> string): Release
    requires f.content.Ok?
  {
    Release(Some(FileVersion(f)), Some(FileTitle(f.content.value)), Some(f.content.value),
      Some(stamp(f.mtime)), Some("examples/" + f.stem + ".md"), "local")
  }

  /**
   * The `for file_path in release_files:` loop from `fs`, holding `acc`: it stops once
   * `count` records are held, skips the current version and unreadable files. What was
   * held stays in front, and no more than `count` records are held unless more already were.
   */
  function LocalRecords(fs: seq<ReleaseFile>, count: int, currentVersion: Option<string>, stamp: int -> string, acc: seq<Release>)
    : (out: seq<Release>)
    ensures |acc| <= |out| && out[..|acc|] == acc
    ensures |out| <= (if |acc| >= count then |acc| else count)
    decreases |fs|
  {
    if fs == [] || |acc| >= count then acc
    else if Some(FileVersion(fs[0])) == currentVersion || fs[0].content.Err? then
      LocalRecords(fs[1..], count, currentVersion, stamp, acc)
    else
      var acc' := acc + [LocalRecord(fs[0], stamp)];
      var out := LocalRecords(fs[1..], count, currentVersion, stamp, acc');
      assert out[..|acc|] == out[..|acc'|][..|acc|];
      out
  }

  /** A record built from a readable file of `fs` whose version is not the current one. */
  ghost predicate FromFile(r: Release, fs: seq<ReleaseFile>, currentVersion: Option<string>, stamp: int -> string) {
    exists f :: f in fs && f.content.Ok? && Some(FileVersion(f)) != currentVersion && r == LocalRecord(f, stamp)
  }

  lemma FromFileTail(r: Release, fs: seq<ReleaseFile>, currentVersion: Option<string>, stamp: int -> string)
    requires fs != [] && FromFile(r, fs[1..], currentVersion, stamp)
    ensures FromFile(r, fs, currentVersion, stamp)
  {
    var f :| f in fs[1..] && f.content.Ok? && Some(FileVersion(f)) != currentVersion && r == LocalRecord(f, stamp);
    assert f in fs;
  }

  /**
   * Every record the local loader adds comes from a readable release file of the listing
   * whose version is not the current one, so no record carries the current version.
   */
  lemma {:induction false} LocalRecordsFromFiles(
    fs: seq<ReleaseFile>, count: int, currentVersion: Option<string>, stamp: int -> string, acc: seq<Release>)
    ensures var out := LocalRecords(fs, count, currentVersion, stamp, acc);
      forall k :: |acc| <= k < |out| ==> FromFile(out[k], fs, currentVersion, stamp) && out[k].version != currentVersion
    decreases |fs|
  {
    var out := LocalRecords(fs, count, currentVersion, stamp, acc);
    if fs == [] || |acc| >= count {
    } else if Some(FileVersion(fs[0])) == currentVersion || fs[0].content.Err? {
      LocalRecordsFromFiles(fs[1..], count, currentVersion, stamp, acc);
      assert out == LocalRecords(fs[1..], count, currentVersion, stamp, acc);
      forall k | |acc| <= k < |out|
        ensures FromFile(out[k], fs, currentVersion, stamp)
      {
        FromFileTail(out[k], fs, currentVersion, stamp);
      }
    } else {
      var acc' := acc + [LocalRecord(fs[0], stamp)];
      LocalRecordsFromFiles(fs[1..], count, currentVersion, stamp, acc');
      assert out == LocalRecords(fs[1..], count, currentVersion, stamp, acc');
      forall k | |acc| <= k < |out|
        ensures FromFile(out[k], fs, currentVersion, stamp) && out[k].version != currentVersion
      {
        if k == |acc| {
          assert out[k] == out[..|acc'|][k] == acc'[k];
          assert fs[0] in fs;
        } else {
          FromFileTail(out[k], fs, currentVersion, stamp);
        }
      }
    }
  }

  /**
   * `_load_local_releases`: [] without an examples directory; otherwise the release files
   * newest first, through the selection loop.
   */
  method LoadLocalReleases(dir: Option<seq<ReleaseFile>>, count: int, currentVersion: Option<string>, stamp: int -> string)
    returns (releases: seq<Release>)
    ensures dir.None? ==> releases == []
    ensures dir.Some? ==> releases == LocalRecords(SortNewestFirst(dir.value), count, currentVersion, stamp, [])
  {
    if dir.None? {
      return [];
    }
    var files := SortNewestFirst(dir.value);
    releases := [];
    var i := 0;
    assert files[i..] == files;
    while i < |files|
      invariant 0 <= i <= |files|
      invariant LocalRecords(files, count, currentVersion, stamp, []) == LocalRecords(files[i..], count, currentVersion, stamp, releases)
    {
      assert files[i..][1..] == files[i + 1..];
      if |releases| >= count {
        return;
      }
      var file := files[i];
      var version := ReplaceAll(file.stem, "release_", "");
      if Some(version) == currentVersion {
        i := i + 1;
        continue;
      }
      if file.content.Err? {
        i := i + 1;
        continue;
      }
      releases := releases + [LocalRecord(file, stamp)];
      i := i + 1;
    }
    assert files[i..] == [];
  }

  // ---------------------------------------------------------------- CHANGELOG.md

  /** A record the changelog parser builds; its body grows while later lines are read. */
  datatype Entry = Entry(version: string, name: string, body: string)

  /**
   * The parser's state. The source appends the record object itself to `releases` and
   * keeps appending to its body afterwards, so `releases` holds positions in `entries`
   * (one per record object) and `current` the position of the open record.
   */
  datatype ParseState = ParseState(entries: seq<Entry>, releases: seq<nat>, current: Option<nat>)

  predicate ParseValid(st: ParseState) {
    (forall k :: 0 <= k < |st.releases| ==> st.releases[k] < |st.entries|) &&
    (st.current.Some? ==> st.current.value < |st.entries|)
  }

  /** A version header: starts with `##` and contains both `[` and `]`. */
  predicate IsHeader(line: string) {
    StartsWith(line, "##") && '[' in line && ']' in line
  }

  /** `line.split('[')[1].split(']')[0]`: the text after the first `[` up to the next `]`. */
  function HeaderVersion(line: string): (v: string)
    requires '[' in line
    ensures '[' !in v && ']' !in v
  {
    var i := Find(line, '[');
    assert i < |line|;
    assert Split(line, '[')[1] == Split(line[i + 1..], '[')[0];
    var after := Split(line, '[')[1];
    SplitPartsLackSeparator(line, '[');
    SplitPartsLackSeparator(after, ']');
    var v := Split(after, ']')[0];
    assert v == after[..Find(after, ']')];
    v
  }

  /** The record a line is appended to: `current_release['body'] += line + '\n'`. */
  function AppendLine(e: Entry, line: string): Entry {
    e.(body := e.body + line + "\n")
  }

  /** One line of the parser loop. */
  function ParseStep(st: ParseState, line: string, count: int, currentVersion: Option<string>): (r: ParseState)
    requires ParseValid(st)
    ensures ParseValid(r)
    ensures |r.entries| >= |st.entries|
  {
    if IsHeader(line) then
      var releases := if st.current.Some? && |st.releases| < count then st.releases + [st.current.value] else st.releases;
      var version := HeaderVersion(line);
      if Some(version) != currentVersion then
        ParseState(st.entries + [Entry(version, StripChars(line, {'#', ' '}), "")], releases, Some(|st.entries|))
      else ParseState(st.entries, releases, st.current)
    else if st.current.Some? then
      ParseState(st.entries[st.current.value := AppendLine(st.entries[st.current.value], line)], st.releases, st.current)
    else st
  }

  /** The parser state after the given lines. */
  function ParseLines(lines: seq<string>, count: int, currentVersion: Option<string>): (r: ParseState)
    ensures ParseValid(r)
    decreases |lines|
  {
    if lines == [] then ParseState([], [], None)
    else ParseStep(ParseLines(lines[..|lines| - 1], count, currentVersion), lines[|lines| - 1], count, currentVersion)
  }

  /** The records at the given positions, as they read at the end. */
  function Resolve(entries: seq<Entry>, positions: seq<nat>): (r: seq<Entry>)
    requires forall k :: 0 <= k < |positions| ==> positions[k] < |entries|
    ensures |r| == |positions|
    ensures forall k :: 0 <= k < |positions| ==> r[k] == entries[positions[k]]
  {
    seq(|positions|, k requires 0 <= k < |positions| => entries[positions[k]])
  }

  /** The end of the parse: the open record is added while fewer than `count` are held, then `[:count]`. */
  function FinishParse(st: ParseState, count: int): seq<Entry>
    requires ParseValid(st)
  {
    var releases := if st.current.Some? && |st.releases| < count then st.releases + [st.current.value] else st.releases;
    SliceTo(Resolve(st.entries, releases), count)
  }

  /** What the parser returns for the file's text. */
  function ParseChangelog(content: string, count: int, currentVersion: Option<string>): seq<Entry> {
    FinishParse(ParseLines(Split(content, '\n'), count, currentVersion), count)
  }

  /** Every record the parser builds carries a version other than the current one, free of brackets. */
  lemma {:induction false} ParseLinesEntries(lines: seq<string>, count: int, currentVersion: Option<string>)
    ensures forall e :: e in ParseLines(lines, count, currentVersion).entries ==>
      Some(e.version) != currentVersion && '[' !in e.version && ']' !in e.version
    decreases |lines|
  {
    if lines != [] {
      var st := ParseLines(lines[..|lines| - 1], count, currentVersion);
      ParseLinesEntries(lines[..|lines| - 1], count, currentVersion);
      var line := lines[|lines| - 1];
      if !IsHeader(line) && st.current.Some? {
        var r := ParseLines(lines, count, currentVersion);
        forall e | e in r.entries
          ensures Some(e.version) != currentVersion && '[' !in e.version && ']' !in e.version
        {
          var k :| 0 <= k < |r.entries| && r.entries[k] == e;
          assert e.version == st.entries[k].version;
          assert st.entries[k] in st.entries;
        }
      }
    }
  }

  /**
   * The parser returns at most `count` records (for a count of at least zero), each with a
   * version other than the current one and free of brackets.
   */
  lemma ParseChangelogSpec(content: string, count: nat, currentVersion: Option<string>)
    ensures |ParseChangelog(content, count, currentVersion)| <= count
    ensures forall e :: e in ParseChangelog(content, count, currentVersion) ==>
      Some(e.version) != currentVersion && '[' !in e.version && ']' !in e.version
  {
    var st := ParseLines(Split(content, '\n'), count, currentVersion);
    ParseLinesEntries(Split(content, '\n'), count, currentVersion);
    var releases := if st.current.Some? && |st.releases| < count then st.releases + [st.current.value] else st.releases;
    var all := Resolve(st.entries, releases);
    forall e | e in ParseChangelog(content, count, currentVersion)
      ensures Some(e.version) != currentVersion && '[' !in e.version && ']' !in e.version
    {
      var k :| 0 <= k < |SliceTo(all, count)| && SliceTo(all, count)[k] == e;
      assert e == all[k] == st.entries[releases[k]];
      assert st.entries[releases[k]] in st.entries;
    }
  }

  /** Lines before the first header are ignored: they leave the parser where it started. */
  lemma {:induction false} PreambleIgnored(lines: seq<string>, count: int, currentVersion: Option<string>)
    requires forall i :: 0 <= i < |lines| ==> !IsHeader(lines[i])
    ensures ParseLines(lines, count, currentVersion) == ParseState([], [], None)
    decreases |lines|
  {
    if lines != [] {
      PreambleIgnored(lines[..|lines| - 1], count, currentVersion);
    }
  }

  /** A text without any header line gives no records. */
  lemma NoHeaderNoRecords(content: string, count: int, currentVersion: Option<string>)
    requires forall i :: 0 <= i < |Split(content, '\n')| ==> !IsHeader(Split(content, '\n')[i])
    ensures ParseChangelog(content, count, currentVersion) == []
  {
    PreambleIgnored(Split(content, '\n'), count, currentVersion);
  }

  /**
   * A header of the current version opens no record: the open record is held, stays open,
   * and the lines under that header keep growing its body. At the end it is held a second
   * time, so the same record object appears twice, both copies carrying those lines.
   */
  lemma CurrentVersionHeaderKeepsRecordOpen(
    st: ParseState, header: string, line: string, count: int, currentVersion: Option<string>)
    requires ParseValid(st) && st.current.Some? && |st.releases| + 1 < count
    requires IsHeader(header) && Some(HeaderVersion(header)) == currentVersion && !IsHeader(line)
    ensures var after := ParseStep(ParseStep(st, header, count, currentVersion), line, count, currentVersion);
      var cur := st.current.value;
      && after.current == st.current
      && after.releases == st.releases + [cur]
      && after.entries[cur].body == st.entries[cur].body + line + "\n"
      && FinishParse(after, count)[|st.releases|] == FinishParse(after, count)[|st.releases| + 1] == after.entries[cur]
  {
    var after := ParseStep(ParseStep(st, header, count, currentVersion), line, count, currentVersion);
    var held := after.releases + [after.current.value];
    assert SliceTo(Resolve(after.entries, held), count) == Resolve(after.entries, held);
  }

  /** The body of the parser loop for one line, on the record list, the held positions and the open record. */
  method ParseLine(
    entries: seq<Entry>, held: seq<nat>, current: Option<nat>, line: string, count: int, currentVersion: Option<string>)
    returns (entries': seq<Entry>, held': seq<nat>, current': Option<nat>)
    requires ParseValid(ParseState(entries, held, current))
    ensures ParseState(entries', held', current') == ParseStep(ParseState(entries, held, current), line, count, currentVersion)
  {
    entries', held', current' := entries, held, current;
    if IsHeader(line) {
      if current.Some? && |held| < count {
        held' := held + [current.value];
      }
      var version := HeaderVersion(line);
      if Some(version) != currentVersion {
        entries' := entries + [Entry(version, StripChars(line, {'#', ' '}), "")];
        current' := Some(|entries'| - 1);
      }
    } else if current.Some? {
      entries' := entries[current.value := AppendLine(entries[current.value], line)];
    }
  }

  /**
   * `_parse_changelog_file`: [] when CHANGELOG.md is missing or unreadable (`file` is the
   * outcome of reading it); otherwise the line loop.
   */
  method ParseChangelogFile(file: Option<Result<string, Error>>, count: int, currentVersion: Option<string>)
    returns (releases: seq<Entry>)
    ensures file.None? || file.value.Err? ==> releases == []
    ensures file.Some? && file.value.Ok? ==> releases == ParseChangelog(file.value.value, count, currentVersion)
  {
    if file.None? || file.value.Err? {
      return [];
    }
    var lines := Split(file.value.value, '\n');
    var entries: seq<Entry> := [];
    var held: seq<nat> := [];
    var current: Option<nat> := None;
    var i := 0;
    while i < |lines|
      invariant 0 <= i <= |lines|
      invariant ParseLines(lines[..i], count, currentVersion) == ParseState(entries, held, current)
    {
      assert lines[..i + 1][..i] == lines[..i];
      entries, held, current := ParseLine(entries, held, current, lines[i], count, currentVersion);
      i := i + 1;
    }
    assert lines[..i] == lines;
    if current.Some? && |held| < count {
      held := held + [current.value];
    }
    releases := SliceTo(Resolve(entries, held), count);
  }
}
