/**
 * The decisions the HTTP layer takes before handing over to the pipeline: request
 * validation, whether the forge and the wiki count as configured, merging a config
 * update, checking an uploaded issue file, and assembling the arguments of the enhanced
 * generation request.
 */
module ApiEndpoints {
  import opened Outcomes
  import opened Errors
  import opened Environment
  import opened Text
  import opened JsonValue
  import DataIngestion

  // ---------------------------------------------------------------- request validation

  const Audiences: seq<string> := ["users", "developers", "managers"]
  const CommitSources: seq<string> := ["local", "github", "auto"]
  const IssueSources: seq<string> := ["github", "jira", "json"]

  const MissingVersion := "Missing required field: version"
  const InvalidAudience := "Invalid audience. Must be one of: users, developers, managers"
  const InvalidCommitSource := "Invalid commit_source. Must be one of: ['local', 'github', 'auto']"
  const InvalidIssueSource := "Invalid issue_source. Must be one of: ['github', 'jira', 'json']"

  /** `data[key] not in allowed` is false: the key is absent, or its value is one of the allowed strings. */
  predicate AllowedOrAbsent(data: map<string, Json>, key: string, allowed: seq<string>) {
    key !in data || (data[key].JStr? && data[key].s in allowed)
  }

  /** `validate_generation_request`: the first failing check's message, or none when all pass. */
  function ValidateGenerationRequest(data: map<string, Json>): (r: Option<string>)
    ensures r.None? <==>
      && "version" in data && Truthy(data["version"])
      && AllowedOrAbsent(data, "audience", Audiences)
      && AllowedOrAbsent(data, "commit_source", CommitSources)
      && AllowedOrAbsent(data, "issue_source", IssueSources)
    ensures r.Some? ==> r.value in {MissingVersion, InvalidAudience, InvalidCommitSource, InvalidIssueSource}
  {
    if "version" !in data || !Truthy(data["version"]) then Some(MissingVersion)
    else if !AllowedOrAbsent(data, "audience", Audiences) then Some(InvalidAudience)
    else if !AllowedOrAbsent(data, "commit_source", CommitSources) then Some(InvalidCommitSource)
    else if !AllowedOrAbsent(data, "issue_source", IssueSources) then Some(InvalidIssueSource)
    else None
  }

  /** Checks run in order: a missing version is reported even when everything else is wrong too. */
  lemma ValidationOrder(data: map<string, Json>)
    ensures !("version" in data && Truthy(data["version"])) ==> ValidateGenerationRequest(data) == Some(MissingVersion)
    ensures "version" in data && Truthy(data["version"]) && !AllowedOrAbsent(data, "audience", Audiences) ==>
      ValidateGenerationRequest(data) == Some(InvalidAudience)
    ensures ("version" in data && Truthy(data["version"]) && AllowedOrAbsent(data, "audience", Audiences)
      && !AllowedOrAbsent(data, "commit_source", CommitSources)) ==>
      ValidateGenerationRequest(data) == Some(InvalidCommitSource)
    ensures ("version" in data && Truthy(data["version"]) && AllowedOrAbsent(data, "audience", Audiences)
      && AllowedOrAbsent(data, "commit_source", CommitSources)
      && !AllowedOrAbsent(data, "issue_source", IssueSources)) ==>
      ValidateGenerationRequest(data) == Some(InvalidIssueSource)
  {
  }

  /** A request holding only a truthy version passes: every other field is optional. */
  lemma VersionAlonePasses(version: Json)
    requires Truthy(version)
    ensures ValidateGenerationRequest(map["version" := version]) == None
  {
  }

  /**
   * A validated request never reaches the ingestion's "Unsupported ... source" errors:
   * its commit source resolves to the forge or to git, and its issue source is one the
   * issue step accepts.
   */
  lemma ValidatedSourcesAreSupported(data: map<string, Json>, env: Env)
    requires ValidateGenerationRequest(data).None?
    ensures "commit_source" in data ==>
      DataIngestion.CommitSource(data["commit_source"].s, env) in {"github", "local"}
    ensures "issue_source" in data ==> data["issue_source"].s in {"github", "jira", "json"}
  {
  }

  // ---------------------------------------------------------------- configured predicates

  /** The token is set, is not a placeholder, and is longer than ten characters. */
  predicate GitHubConfigured(env: Env) {
    var t := Getenv(env, "GITHUB_TOKEN");
    Given(t) && !StartsWith(t.value, "your_") && |t.value| > 10
  }

  /** All three wiki settings are set and none still holds its placeholder prefix. */
  predicate ConfluenceConfigured(env: Env) {
    var base, user, token := Getenv(env, "CONFLUENCE_BASE"), Getenv(env, "CONFLUENCE_USER"), Getenv(env, "CONFLUENCE_API_TOKEN");
    && Given(base) && Given(user) && Given(token)
    && !StartsWith(base.value, "https://yourcompany")
    && !StartsWith(user.value, "you@")
    && !StartsWith(token.value, "your_")
  }

  /** A placeholder or short forge token never counts as configured. */
  lemma PlaceholderTokensRejected(env: Env, rest: string)
    ensures Getenv(env, "GITHUB_TOKEN") == Some("your_" + rest) ==> !GitHubConfigured(env)
    ensures Given(Getenv(env, "GITHUB_TOKEN")) && |Getenv(env, "GITHUB_TOKEN").value| <= 10 ==> !GitHubConfigured(env)
    ensures Getenv(env, "CONFLUENCE_API_TOKEN") == Some("your_" + rest) ==> !ConfluenceConfigured(env)
    ensures Getenv(env, "CONFLUENCE_USER") == Some("you@" + rest) ==> !ConfluenceConfigured(env)
  {
    assert ("your_" + rest)[..5] == "your_";
    assert ("you@" + rest)[..4] == "you@";
  }

  /** The wiki details shown by the config endpoint. */
  datatype ConfluenceDetails = ConfluenceDetails(baseUrl: string, user: string, tokenSet: bool)

  const NotConfigured := "Not configured"

  /** Each value is shown only when it is set and not a placeholder. */
  function Details(env: Env): (d: ConfluenceDetails)
    ensures ConfluenceConfigured(env) ==>
      d == ConfluenceDetails(Getenv(env, "CONFLUENCE_BASE").value, Getenv(env, "CONFLUENCE_USER").value, true)
    ensures !Given(Getenv(env, "CONFLUENCE_BASE")) ==> d.baseUrl == NotConfigured
    ensures !Given(Getenv(env, "CONFLUENCE_API_TOKEN")) ==> !d.tokenSet
  {
    var base, user, token := Getenv(env, "CONFLUENCE_BASE"), Getenv(env, "CONFLUENCE_USER"), Getenv(env, "CONFLUENCE_API_TOKEN");
    ConfluenceDetails(
      if Given(base) && !StartsWith(base.value, "https://yourcompany") then base.value else NotConfigured,
      if Given(user) && !StartsWith(user.value, "you@") then user.value else NotConfigured,
      Given(token) && !StartsWith(token.value, "your_"))
  }

  // ---------------------------------------------------------------- config update

  /**
   * One element of a non-dict argument to `dict.update`: a two-item list gives its key
   * and value, a two-character string its two characters; any other length raises
   * ValueError, a list or dict key is unhashable and a scalar is not a sequence.
   */
  function PairOf(e: Json): (r: Result<(string, Json), Error>)
    ensures e.JArr? && |e.items| == 2 && e.items[0].JStr? ==> r == Ok((e.items[0].s, e.items[1]))
    ensures e.JStr? && |e.s| == 2 ==> r == Ok(([e.s[0]], JStr([e.s[1]])))
    ensures (e.JArr? && |e.items| != 2) || (e.JStr? && |e.s| != 2) ==> r.Err? && r.error.ValueError?
    ensures e.JNull? || e.JBool? || e.JInt? ==> r.Err? && r.error.TypeError?
  {
    match e
    case JArr(xs) =>
      if |xs| != 2 then Err(ValueError("dictionary update sequence element has length " + NatToString(|xs|) + "; 2 is required"))
      else if xs[0].JStr? then Ok((xs[0].s, xs[1]))
      else if xs[0].JArr? || xs[0].JObj? then Err(TypeError("unhashable type"))
      else Err(TypeError("non-string key"))
    case JStr(t) =>
      if |t| != 2 then Err(ValueError("dictionary update sequence element has length " + NatToString(|t|) + "; 2 is required"))
      else Ok(([t[0]], JStr([t[1]])))
    case JObj(_) => Err(ValueError("dictionary update sequence element is a dict"))
    case _ => Err(TypeError("cannot convert dictionary update sequence element to a sequence"))
  }

  /** The pairs of a sequence argument, in order; the first element that is not a pair raises. */
  function Pairs(xs: seq<Json>): (r: Result<seq<(string, Json)>, Error>)
    ensures r.Ok? <==> forall i :: 0 <= i < |xs| ==> PairOf(xs[i]).Ok?
    ensures r.Ok? ==> |r.value| == |xs| && forall i :: 0 <= i < |xs| ==> r.value[i] == PairOf(xs[i]).value
  {
    if xs == [] then Ok([])
    else match PairOf(xs[0])
      case Err(e) => Err(e)
      case Ok(p) =>
        match Pairs(xs[1..])
        case Err(e) => Err(e)
        case Ok(ps) => Ok([p] + ps)
  }

  /** The dict after updating `m` with the pairs in order: a later pair overwrites an earlier one. */
  function ApplyPairs(m: map<string, Json>, ps: seq<(string, Json)>): map<string, Json>
    decreases |ps|
  {
    if ps == [] then m else ApplyPairs(m, ps[..|ps| - 1])[ps[|ps| - 1].0 := ps[|ps| - 1].1]
  }

  /** The index of the last pair naming `k`, or -1 when none does. */
  function LastNaming(ps: seq<(string, Json)>, k: string): (r: int)
    ensures -1 <= r < |ps|
    ensures r >= 0 ==> ps[r].0 == k && forall j :: r < j < |ps| ==> ps[j].0 != k
    ensures r == -1 ==> forall i :: 0 <= i < |ps| ==> ps[i].0 != k
    decreases |ps|
  {
    if ps == [] then -1
    else if ps[|ps| - 1].0 == k then |ps| - 1
    else LastNaming(ps[..|ps| - 1], k)
  }

  /**
   * After the pairs, a key is present when it was before or some pair names it; its value
   * is that of the last pair naming it, or the old one when none does.
   */
  lemma {:induction false} ApplyPairsLookup(m: map<string, Json>, ps: seq<(string, Json)>, k: string)
    ensures LastNaming(ps, k) >= 0 ==> k in ApplyPairs(m, ps) && ApplyPairs(m, ps)[k] == ps[LastNaming(ps, k)].1
    ensures LastNaming(ps, k) == -1 ==> (k in ApplyPairs(m, ps) <==> k in m)
    ensures LastNaming(ps, k) == -1 && k in m ==> ApplyPairs(m, ps)[k] == m[k]
    decreases |ps|
  {
    if ps != [] && ps[|ps| - 1].0 != k {
      var init := ps[..|ps| - 1];
      ApplyPairsLookup(m, init, k);
      if LastNaming(init, k) >= 0 {
        assert init[LastNaming(init, k)] == ps[LastNaming(ps, k)];
      }
    }
  }

  /**
   * `m.update(upd)` for a decoded argument: a dict is merged key by key; a list is applied
   * pair by pair; the empty string is an empty sequence and changes nothing; any other
   * string has one-character elements and raises ValueError; a scalar is not iterable.
   */
  function DictUpdate(m: map<string, Json>, upd: Json): (r: Result<map<string, Json>, Error>)
    ensures r.Ok? <==> upd.JObj? || upd == JStr("") || (upd.JArr? && Pairs(upd.items).Ok?)
    ensures r.Ok? && upd.JObj? ==> r.value == m + upd.fields
    ensures r.Ok? && upd == JStr("") ==> r.value == m
    ensures r.Ok? && upd.JArr? ==> r.value == ApplyPairs(m, Pairs(upd.items).value)
  {
    match upd
    case JObj(fs) => Ok(m + fs)
    case JArr(xs) =>
      (match Pairs(xs)
       case Err(e) => Err(e)
       case Ok(ps) => Ok(ApplyPairs(m, ps)))
    case JStr(t) =>
      if t == "" then Ok(m)
      else Err(ValueError("dictionary update sequence element has length 1; 2 is required"))
    case _ => Err(TypeError("object is not iterable"))
  }

  /** `cfg[key].update(upd)`: `cfg` must hold the key and its section be a dict. */
  function UpdateSection(cfg: map<string, Json>, key: string, upd: Json): (r: Result<map<string, Json>, Error>)
    ensures r.Ok? <==> key in cfg && cfg[key].JObj? && DictUpdate(cfg[key].fields, upd).Ok?
    ensures r.Ok? ==> r.value == cfg[key := JObj(DictUpdate(cfg[key].fields, upd).value)]
    ensures key !in cfg ==> r == Err(KeyError(key))
  {
    if key !in cfg then Err(KeyError(key))
    else if !cfg[key].JObj? then Err(AttributeError("object has no attribute 'update'"))
    else match DictUpdate(cfg[key].fields, upd)
      case Err(e) => Err(e)
      case Ok(m) => Ok(cfg[key := JObj(m)])
  }

  /** A list of two-item lists with string keys updates the section to the last value given for each key. */
  lemma UpdateSectionPairs(cfg: map<string, Json>, key: string, xs: seq<Json>, k: string, i: nat)
    requires key in cfg && cfg[key].JObj? && Pairs(xs).Ok?
    requires i < |xs| && PairOf(xs[i]).value.0 == k
    requires forall j :: i < j < |xs| ==> PairOf(xs[j]).value.0 != k
    ensures var r := UpdateSection(cfg, key, JArr(xs));
      r.Ok? && r.value[key].JObj? && k in r.value[key].fields && r.value[key].fields[k] == PairOf(xs[i]).value.1
  {
    var d := DictUpdate(cfg[key].fields, JArr(xs));
    DictUpdatePairs(cfg[key].fields, xs, k, i);
    assert UpdateSection(cfg, key, JArr(xs)) == Ok(cfg[key := JObj(d.value)]);
  }

  /** A list of pairs leaves each key it names with the value of the last pair naming it. */
  lemma DictUpdatePairs(section: map<string, Json>, xs: seq<Json>, k: string, i: nat)
    requires Pairs(xs).Ok?
    requires i < |xs| && PairOf(xs[i]).value.0 == k
    requires forall j :: i < j < |xs| ==> PairOf(xs[j]).value.0 != k
    ensures DictUpdate(section, JArr(xs)).Ok?
    ensures k in DictUpdate(section, JArr(xs)).value && DictUpdate(section, JArr(xs)).value[k] == PairOf(xs[i]).value.1
  {
    var ps := Pairs(xs).value;
    assert LastNaming(ps, k) == i;
    ApplyPairsLookup(section, ps, k);
  }

  /** The update either leaves the section alone or can be applied to it: the section is a dict that accepts the value. */
  predicate Mergeable(cfg: map<string, Json>, update: map<string, Json>, key: string) {
    key !in update || (key in cfg && cfg[key].JObj? && DictUpdate(cfg[key].fields, update[key]).Ok?)
  }

  /** The section after the update: updated with the given value when the update names it, unchanged otherwise. */
  predicate SectionAfter(cfg: map<string, Json>, update: map<string, Json>, key: string, result: map<string, Json>)
    requires Mergeable(cfg, update, key)
  {
    if key in update then key in result && result[key] == JObj(DictUpdate(cfg[key].fields, update[key]).value)
    else (key in result <==> key in cfg) && (key in cfg ==> result[key] == cfg[key])
  }

  /**
   * `update_config`: `repo` is overwritten, the `llm` and `publish` sections are merged
   * key by key, every other entry is kept; the save's failure (if any) is the error.
   */
  method UpdateConfig(cfg: map<string, Json>, update: map<string, Json>, saveFailure: Option<Error>)
    returns (r: Result<map<string, Json>, Error>)
    ensures r.Ok? <==> Mergeable(cfg, update, "llm") && Mergeable(cfg, update, "publish") && saveFailure.None?
    ensures r.Ok? ==> forall k :: k !in {"repo", "llm", "publish"} ==>
      (k in r.value <==> k in cfg) && (k in cfg ==> r.value[k] == cfg[k])
    ensures r.Ok? ==> "repo" in update ==> "repo" in r.value && r.value["repo"] == update["repo"]
    ensures r.Ok? ==> "repo" !in update ==> ("repo" in r.value <==> "repo" in cfg) && ("repo" in cfg ==> r.value["repo"] == cfg["repo"])
    ensures r.Ok? ==> SectionAfter(cfg, update, "llm", r.value) && SectionAfter(cfg, update, "publish", r.value)
    ensures !Mergeable(cfg, update, "llm") ==> r == UpdateSection(cfg, "llm", update["llm"])
  {
    var c := cfg;
    if "repo" in update {
      c := c["repo" := update["repo"]];
    }
    if "llm" in update {
      var u := UpdateSection(c, "llm", update["llm"]);
      if u.Err? {
        return u;
      }
      c := u.value;
    }
    if "publish" in update {
      var u := UpdateSection(c, "publish", update["publish"]);
      if u.Err? {
        return u;
      }
      c := u.value;
    }
    if saveFailure.Some? {
      return Err(saveFailure.value);
    }
    r := Ok(c);
  }

  // ---------------------------------------------------------------- issue upload

  /** An uploaded file: its client-side name and its content decoded as JSON (`None` when it is not JSON). */
  datatype Upload = Upload(filename: string, content: Option<Json>)

  /** The upload endpoint's answer. */
  datatype UploadReply =
    | Accepted(savedName: string, issuesCount: nat, path: string)
    | Rejected(status: int, message: string)
    | Crashed(error: Error)    // any other exception: status 500 with its message

  /**
   * `upload_issues`. `secured` is werkzeug's `secure_filename` of the name, `timestamp`
   * the clock's `%Y%m%d_%H%M%S`, and `saveFailure` the failure, if any, of saving and
   * re-reading the file.
   */
  function UploadIssues(file: Option<Upload>, secured: string, timestamp: string, saveFailure: Option<Error>): (r: UploadReply)
    ensures file.None? ==> r == Rejected(400, "No file provided")
    ensures file.Some? && file.value.filename == "" ==> r == Rejected(400, "No file selected")
    ensures r.Accepted? ==>
      && file.Some? && EndsWith(file.value.filename, ".json") && saveFailure.None?
      && file.value.content.Some?
      && var data := file.value.content.value;
         (data.JArr? && r.issuesCount == |data.items|)
         || (data.JObj? && "issues" in data.fields && Len(data.fields["issues"]) == Some(r.issuesCount))
    ensures r.Accepted? ==> r.savedName == "issues_" + timestamp + "_" + secured && r.path == "uploads/" + r.savedName
  {
    if file.None? then Rejected(400, "No file provided")
    else if file.value.filename == "" then Rejected(400, "No file selected")
    else if !EndsWith(file.value.filename, ".json") then Rejected(400, "Only JSON files allowed")
    else if saveFailure.Some? then Crashed(saveFailure.value)
    else
      var saved := "issues_" + timestamp + "_" + secured;
      match file.value.content
      case None => Rejected(400, "Invalid JSON file")
      case Some(data) =>
        if data.JArr? then Accepted(saved, |data.items|, "uploads/" + saved)
        else if data.JObj? && "issues" in data.fields then
          (match Len(data.fields["issues"])
           case Some(n) => Accepted(saved, n, "uploads/" + saved)
           case None => Crashed(TypeError("object has no len()")))
        else Rejected(400, "Invalid JSON structure")
  }

  /** A JSON file holding a list or a dict with `issues` is accepted, reporting that list's length. */
  lemma UploadAcceptsIssueShapes(name: string, secured: string, timestamp: string, issues: seq<Json>, others: map<string, Json>)
    requires name != "" && EndsWith(name, ".json")
    ensures UploadIssues(Some(Upload(name, Some(JArr(issues)))), secured, timestamp, None).issuesCount == |issues|
    ensures UploadIssues(Some(Upload(name, Some(JObj(others["issues" := JArr(issues)])))), secured, timestamp, None).issuesCount == |issues|
    ensures UploadIssues(Some(Upload(name, Some(JStr(name)))), secured, timestamp, None) == Rejected(400, "Invalid JSON structure")
  {
  }

  // ---------------------------------------------------------------- enhanced request

  /** The arguments the enhanced endpoint hands to the pipeline. */
  datatype EnhancedArgs = EnhancedArgs(
    version: Json, repo: Json, audience: Json,
    commitSource: Json, issueSource: Json, releaseSource: Json,
    platforms: seq<string>)

  /** The fixed order of the three publishing flags. */
  const PlatformOrder: seq<string> := ["confluence", "github", "slack"]

  /** A platform's place in the fixed order. */
  function Rank(p: string): nat {
    if p == "confluence" then 0 else if p == "github" then 1 else 2
  }

  /** The platforms for three flags. */
  function Platforms(confluence: bool, github: bool, slack: bool): seq<string> {
    (if confluence then ["confluence"] else []) + (if github then ["github"] else []) + (if slack then ["slack"] else [])
  }

  /** The platform list, appended flag by flag. */
  method CollectPlatforms(confluence: bool, github: bool, slack: bool) returns (platforms: seq<string>)
    ensures platforms == Platforms(confluence, github, slack)
  {
    platforms := [];
    if confluence {
      platforms := platforms + ["confluence"];
    }
    if github {
      platforms := platforms + ["github"];
    }
    if slack {
      platforms := platforms + ["slack"];
    }
  }

  /** Each set flag contributes its platform once, in the fixed confluence, github, slack order. */
  lemma PlatformsInFixedOrder(confluence: bool, github: bool, slack: bool)
    ensures var ps := Platforms(confluence, github, slack);
      && (forall p :: p in ps ==> p in PlatformOrder)
      && ("confluence" in ps <==> confluence) && ("github" in ps <==> github) && ("slack" in ps <==> slack)
      && (forall i, j :: 0 <= i < j < |ps| ==> Rank(ps[i]) < Rank(ps[j]))
  {
  }

  /** `data.get(key, default)` on the request body. */
  function Arg(data: map<string, Json>, key: string, default: Json): Json {
    Field(data, key, default)
  }

  /**
   * The argument assembly of `_generate_enhanced_internal`: a falsy version, or a repo
   * still falsy after the config fallback, is answered with 400 before anything runs;
   * sources default to auto/github/auto. `configRepo` is the config's `repo` (null when
   * absent).
   */
  function EnhancedArguments(data: map<string, Json>, configRepo: Json): (r: Result<EnhancedArgs, string>)
    ensures !Truthy(Arg(data, "version", JNull)) ==> r == Err("Version is required")
    ensures r.Ok? ==> Truthy(r.value.version) && Truthy(r.value.repo)
    ensures r.Ok? && !Truthy(Arg(data, "repo", JNull)) ==> r.value.repo == configRepo
    ensures r.Ok? ==>
      && r.value.commitSource == Arg(data, "commit_source", JStr("auto"))
      && r.value.issueSource == Arg(data, "issue_source", JStr("github"))
      && r.value.releaseSource == Arg(data, "release_source", JStr("auto"))
      && r.value.audience == Arg(data, "audience", JStr("users"))
    ensures r.Ok? ==> ("confluence" in r.value.platforms <==> Truthy(Arg(data, "publish_confluence", JBool(false))))
    ensures r.Ok? ==> ("github" in r.value.platforms <==> Truthy(Arg(data, "publish_github", JBool(false))))
    ensures r.Ok? ==> ("slack" in r.value.platforms <==> Truthy(Arg(data, "publish_slack", JBool(false))))
    ensures (Truthy(Arg(data, "version", JNull)) && !Truthy(Arg(data, "repo", JNull)) && !Truthy(configRepo)) ==>
      r == Err("Repository not specified")
    ensures r.Ok? <==> Truthy(Arg(data, "version", JNull)) && (Truthy(Arg(data, "repo", JNull)) || Truthy(configRepo))
    ensures r.Ok? ==> r.value.version == Arg(data, "version", JNull)
    ensures r.Ok? && Truthy(Arg(data, "repo", JNull)) ==> r.value.repo == Arg(data, "repo", JNull)
    ensures r.Ok? ==>
      r.value.platforms == Platforms(Truthy(Arg(data, "publish_confluence", JBool(false))),
                                     Truthy(Arg(data, "publish_github", JBool(false))),
                                     Truthy(Arg(data, "publish_slack", JBool(false))))
  {
    var version := Arg(data, "version", JNull);
    if !Truthy(version) then Err("Version is required")
    else
      var given := Arg(data, "repo", JNull);
      var repo := if Truthy(given) then given else configRepo;
      if !Truthy(repo) then Err("Repository not specified")
      else
        Ok(EnhancedArgs(
          version, repo, Arg(data, "audience", JStr("users")),
          Arg(data, "commit_source", JStr("auto")), Arg(data, "issue_source", JStr("github")),
          Arg(data, "release_source", JStr("auto")),
          Platforms(Truthy(Arg(data, "publish_confluence", JBool(false))),
                    Truthy(Arg(data, "publish_github", JBool(false))),
                    Truthy(Arg(data, "publish_slack", JBool(false))))))
  }
}
