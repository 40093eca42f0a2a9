/**
 * The wiki publisher the publishing service uses: credentials fall back to placeholder
 * values, the page is always created, and a title already in use gets a timestamp.
 */
module ConfluenceFix {
  import opened Outcomes
  import opened Errors
  import opened Environment
  import opened Text
  import opened JsonValue
  import opened Paging
  import opened ConfluenceStorage
  import opened ConfluencePublish

  const PlaceholderBase := "https://yourcompany.atlassian.net"
  const PlaceholderUser := "you@example.com"
  const PlaceholderToken := "your_confluence_api_token_here"
  const DefaultSpace := "MFS"

  /**
   * The answers of the outside world: the markdown file's text, the title search, the
   * creation, and the clock formatted as `%Y%m%d-%H%M%S`.
   */
  datatype FixAnswers = FixAnswers(
    markdown: Result<string, Error>,
    lookup: Result<Reply<Json>, Error>,
    create: Result<Reply<Json>, Error>,
    timestamp: string)

  /** The created page's answer and the page address printed for it. */
  datatype Created = Created(result: Json, fullUrl: string)

  /** What the publisher did: the title search, the page posts, and what it returned or raised. */
  datatype FixRun = FixRun(gets: seq<Request>, writes: seq<PageWrite>, outcome: Result<Created, Error>)

  /** The wiki address, from CONFLUENCE_BASE or its placeholder. */
  function Base(env: Env): string {
    GetenvOr(env, "CONFLUENCE_BASE", PlaceholderBase)
  }

  /** The space, from CONFLUENCE_SPACE or "MFS". */
  function Space(env: Env): string {
    GetenvOr(env, "CONFLUENCE_SPACE", DefaultSpace)
  }

  /**
   * The page title: "Release Notes - <version>", with " (<timestamp>)" added when a page
   * with that title exists and updating was not asked for.
   */
  function FixTitle(version: string, existing: Json, updateExisting: bool, timestamp: string): (t: string)
    ensures Truthy(existing) && !updateExisting ==> t == PageTitle(version) + " (" + timestamp + ")"
    ensures !(Truthy(existing) && !updateExisting) ==> t == PageTitle(version)
  {
    if Truthy(existing) && !updateExisting then "Release Notes - " + version + " (" + timestamp + ")"
    else PageTitle(version)
  }

  /** A title collision never reuses the existing page's title. */
  lemma CollisionTitleDiffers(version: string, existing: Json, timestamp: string)
    requires Truthy(existing)
    ensures FixTitle(version, existing, false, timestamp) != PageTitle(version)
    ensures StartsWith(FixTitle(version, existing, false, timestamp), PageTitle(version))
  {
    var t := FixTitle(version, existing, false, timestamp);
    assert |t| > |PageTitle(version)|;
    assert t[..|PageTitle(version)|] == PageTitle(version);
  }

  /**
   * `BASE + result.get('_links', {}).get('webui', '')`: a result or `_links` entry that
   * is not a dict raises, and so does a `webui` that is not a string.
   */
  function FullUrl(base: string, result: Json): (r: Result<string, Error>)
    ensures r.Ok? ==> StartsWith(r.value, base)
    ensures result.JObj? && "_links" !in result.fields ==> r == Ok(base)
    ensures !result.JObj? ==> r.Err?
  {
    match Get(result, "_links", JObj(map[]))
    case Err(e) => Err(e)
    case Ok(links) =>
      match Get(links, "webui", JStr(""))
      case Err(e) => Err(e)
      case Ok(JStr(path)) =>
        assert (base + path)[..|base|] == base;
        assert path == [] ==> base + path == base;
        Ok(base + path)
      case Ok(_) => Err(TypeError("can only concatenate str to str"))
  }

  /** `publish_to_confluence_fixed(version, md_path, update_existing)`. */
  function FixSpec(version: string, updateExisting: bool, env: Env, w: FixAnswers): FixRun {
    if w.markdown.Err? then FixRun([], [], Err(w.markdown.error))
    else
      var base := Base(env);
      var search := PageLookupRequest(base, Space(env), PageTitle(version));
      var existing := ExistingPageId(w.lookup);
      var title := FixTitle(version, existing, updateExisting, w.timestamp);
      var post := PostPage(base + "/wiki/rest/api/content", StoragePage(title, Space(env), StorageHtml(w.markdown.value)));
      FixRun([search], [post], FixOutcome(base, w.create))
  }

  /** After the POST: raise_for_status, then the answer and its page address. */
  function FixOutcome(base: string, create: Result<Reply<Json>, Error>): (r: Result<Created, Error>)
    ensures r.Ok? ==>
              && create.Ok? && !FailingStatus(create.value.status)
              && r.value.result == create.value.body
              && FullUrl(base, create.value.body) == Ok(r.value.fullUrl)
    ensures create.Err? ==> r == Err(create.error)
    ensures create.Ok? && FailingStatus(create.value.status) ==> r == Err(HttpError(create.value.status))
    ensures create.Ok? && !FailingStatus(create.value.status) ==>
      var url := FullUrl(base, create.value.body);
      && (url.Ok? ==> r == Ok(Created(create.value.body, url.value)))
      && (url.Err? ==> r == Err(url.error))
  {
    if create.Err? then Err(create.error)
    else if FailingStatus(create.value.status) then Err(HttpError(create.value.status))
    else
      match FullUrl(base, create.value.body)
      case Err(e) => Err(e)
      case Ok(url) => Ok(Created(create.value.body, url))
  }

  /** `publish_to_confluence_fixed`, running the converter as the source runs it. */
  method PublishFixed(version: string, updateExisting: bool, env: Env, w: FixAnswers) returns (run: FixRun)
    ensures run == FixSpec(version, updateExisting, env, w)
  {
    if w.markdown.Err? {
      return FixRun([], [], Err(w.markdown.error));
    }
    var base := Base(env);
    var space := Space(env);
    var title := PageTitle(version);
    var search := PageLookupRequest(base, space, title);
    var existing := ExistingPageId(w.lookup);
    if Truthy(existing) && !updateExisting {
      title := "Release Notes - " + version + " (" + w.timestamp + ")";
    }
    var payload := MdToStorageFormat(w.markdown.value, title, space);
    var post := PostPage(base + "/wiki/rest/api/content", payload);
    run := FixRun([search], [post], FixOutcome(base, w.create));
  }

  /**
   * The page is always created with one POST to `<base>/wiki/rest/api/content`, whether
   * or not a page with the title exists and whether or not updating was asked for.
   */
  lemma AlwaysCreates(version: string, updateExisting: bool, env: Env, w: FixAnswers)
    requires w.markdown.Ok?
    ensures var run := FixSpec(version, updateExisting, env, w);
      && |run.writes| == 1 && run.writes[0].PostPage?
      && run.writes[0].url == Base(env) + "/wiki/rest/api/content"
      && run.writes[0].payload.version.None? && run.writes[0].payload.id.None?
      && run.writes[0].payload.html == StorageHtml(w.markdown.value)
  {
  }

  /** Missing settings are replaced by placeholders; nothing stops the publication early. */
  lemma PlaceholderDefaults(version: string, w: FixAnswers)
    requires w.markdown.Ok?
    ensures var run := FixSpec(version, false, map[], w);
      && run.gets == [PageLookupRequest(PlaceholderBase, DefaultSpace, PageTitle(version))]
      && run.writes[0].url == PlaceholderBase + "/wiki/rest/api/content"
      && run.writes[0].payload.space == DefaultSpace
  {
  }

  /** The search uses the plain title; the page gets the timestamped one exactly on a collision without update. */
  lemma TitleOnCollision(version: string, updateExisting: bool, env: Env, w: FixAnswers)
    requires w.markdown.Ok?
    ensures var run := FixSpec(version, updateExisting, env, w);
      && run.gets[0] == PageLookupRequest(Base(env), Space(env), PageTitle(version))
      && (run.writes[0].payload.title == PageTitle(version) <==> !(Truthy(ExistingPageId(w.lookup)) && !updateExisting))
  {
    if Truthy(ExistingPageId(w.lookup)) && !updateExisting {
      CollisionTitleDiffers(version, ExistingPageId(w.lookup), w.timestamp);
    }
  }
}
