/**
 * The standalone wiki publisher: it needs all three credentials, optionally looks for a
 * page with the same title and updates it with the next revision number, and otherwise
 * creates the page, trying two API addresses in turn.
 */
module ConfluencePublish {
  import opened Outcomes
  import opened Errors
  import opened Environment
  import opened JsonValue
  import opened Paging
  import opened ConfluenceStorage

  /** The publisher's settings: the environment and the configured space and parent page. */
  datatype Settings = Settings(env: Env, space: string, parentId: Json)

  /**
   * The answers of the outside world: the markdown file's text, the title search, the
   * read of the existing page, the update, and the creation at each address.
   */
  datatype WikiAnswers = WikiAnswers(
    markdown: Result<string, Error>,
    lookup: Result<Reply<Json>, Error>,
    current: Result<Reply<Json>, Error>,
    update: Result<Reply<Json>, Error>,
    create: string -> Result<Reply<Json>, Error>)

  /** A write the publisher sends. */
  datatype PageWrite = PutPage(url: string, payload: Payload) | PostPage(url: string, payload: Payload)

  /** What `publish` did: the GET requests and the writes it sent, and what it returned or raised. */
  datatype PublishRun = PublishRun(gets: seq<Request>, writes: seq<PageWrite>, outcome: Result<Option<Json>, Error>)

  /** CONFLUENCE_BASE, CONFLUENCE_USER and CONFLUENCE_API_TOKEN are all set and non-empty. */
  predicate Credentials(env: Env) {
    Given(Getenv(env, "CONFLUENCE_BASE")) && Given(Getenv(env, "CONFLUENCE_USER"))
      && Given(Getenv(env, "CONFLUENCE_API_TOKEN"))
  }

  /** `find_existing_page`: None without credentials, otherwise the first id of the title search. */
  function FindExistingPage(env: Env, answer: Result<Reply<Json>, Error>): (id: Json)
    ensures !Credentials(env) ==> id == JNull
    ensures Credentials(env) && answer.Ok? && answer.value.status != 200 ==> id == JNull
    ensures (&& Credentials(env) && answer.Ok? && answer.value.status == 200
             && answer.value.body.JObj? && "results" in answer.value.body.fields
             && var results := answer.value.body.fields["results"];
                && results.JArr? && results.items != []
                && results.items[0].JObj? && "id" in results.items[0].fields)
            ==> id == answer.value.body.fields["results"].items[0].fields["id"]
  {
    if !Credentials(env) then JNull else ExistingPageId(answer)
  }

  /** The parent page, when one is configured. */
  function WithParent(p: Payload, parentId: Json): (q: Payload)
    ensures Truthy(parentId) ==> q == p.(ancestors := Some(parentId))
    ensures !Truthy(parentId) ==> q == p
  {
    if Truthy(parentId) then p.(ancestors := Some(parentId)) else p
  }

  /**
   * `r.json().get('version', {}).get('number', 1)` on the read of the existing page: the
   * read's own failure, a body or version entry that is not a dict, and a number that
   * cannot take `+ 1`, raise. A boolean adds like 0 or 1.
   */
  function CurrentNumber(answer: Result<Reply<Json>, Error>): (n: Result<int, Error>)
    ensures answer.Err? ==> n == Err(answer.error)
    ensures n.Ok? ==> answer.Ok? && answer.value.body.JObj?
    ensures answer.Ok? && answer.value.body == JObj(map[]) ==> n == Ok(1)
    ensures answer.Ok? && answer.value.body.JObj? ==>
      var fields := answer.value.body.fields;
      && ("version" !in fields ==> n == Ok(1))
      && ("version" in fields && fields["version"].JObj? ==>
            var v := fields["version"].fields;
            && ("number" !in v ==> n == Ok(1))
            && ("number" in v && v["number"].JInt? ==> n == Ok(v["number"].i)))
    ensures (answer.Ok? && answer.value.body.JObj? && "version" in answer.value.body.fields
             && !answer.value.body.fields["version"].JObj?) ==> n.Err? && n.error.AttributeError?
  {
    if answer.Err? then Err(answer.error)
    else
      match Get(answer.value.body, "version", JObj(map[]))
      case Err(e) => Err(e)
      case Ok(v) =>
        match Get(v, "number", JInt(1))
        case Err(e) => Err(e)
        case Ok(JInt(i)) => Ok(i)
        case Ok(JBool(b)) => Ok(if b then 1 else 0)
        case Ok(_) => Err(TypeError("can only concatenate str (not \"int\") to str"))
  }

  // ---------------------------------------------------------------- create over two addresses

  /** The two addresses a page creation tries, in order. */
  function Endpoints(base: string): seq<string> {
    [base + "/wiki/rest/api/content", base + "/rest/api/content"]
  }

  /** A creation answer that ends the loop: status 200 or 201. */
  predicate Created(a: Result<Reply<Json>, Error>) {
    a.Ok? && (a.value.status == 200 || a.value.status == 201)
  }

  /** The index of the first address that created the page, or |urls| when none did. */
  function FirstCreated(urls: seq<string>, post: string -> Result<Reply<Json>, Error>): (k: nat)
    ensures k <= |urls|
    ensures k < |urls| ==> Created(post(urls[k]))
    ensures forall j :: 0 <= j < k ==> !Created(post(urls[j]))
    decreases |urls|
  {
    if urls == [] then 0 else if Created(post(urls[0])) then 0 else 1 + FirstCreated(urls[1..], post)
  }

  /**
   * The creation loop from `urls` on, `last` being the status of the latest answer: a 200
   * or 201 ends it with that answer; any other status or a raising request moves on; when
   * no address is left it raises with the last status seen.
   */
  function TryCreate(urls: seq<string>, post: string -> Result<Reply<Json>, Error>, last: Option<int>): (r: Result<Reply<Json>, Error>)
    ensures r.Err? ==> r.error.EndpointsFailed?
    decreases |urls|
  {
    if urls == [] then Err(EndpointsFailed(last))
    else
      var a := post(urls[0]);
      if Created(a) then Ok(a.value)
      else TryCreate(urls[1..], post, if a.Ok? then Some(a.value.status) else last)
  }

  /** The creation succeeds exactly when some address answers 200 or 201, with the first such answer. */
  lemma {:induction false} TryCreateFirst(urls: seq<string>, post: string -> Result<Reply<Json>, Error>, last: Option<int>)
    ensures TryCreate(urls, post, last).Ok? <==> FirstCreated(urls, post) < |urls|
    ensures FirstCreated(urls, post) < |urls| ==>
              TryCreate(urls, post, last) == Ok(post(urls[FirstCreated(urls, post)]).value)
    decreases |urls|
  {
    if urls != [] && !Created(post(urls[0])) {
      var a := post(urls[0]);
      TryCreateFirst(urls[1..], post, if a.Ok? then Some(a.value.status) else last);
      if FirstCreated(urls, post) < |urls| {
        assert urls[1..][FirstCreated(urls[1..], post)] == urls[FirstCreated(urls, post)];
      }
    }
  }

  /** How many addresses the creation loop posts to. */
  function Attempts(urls: seq<string>, post: string -> Result<Reply<Json>, Error>): (n: nat)
    ensures n <= |urls|
  {
    var k := FirstCreated(urls, post);
    if k < |urls| then k + 1 else |urls|
  }

  function Posts(urls: seq<string>, payload: Payload): (w: seq<PageWrite>)
    ensures |w| == |urls| && forall i :: 0 <= i < |urls| ==> w[i] == PostPage(urls[i], payload)
  {
    seq(|urls|, i requires 0 <= i < |urls| => PostPage(urls[i], payload))
  }

  /** The creation loop of `publish`, with its `success` flag and `break`. */
  method CreatePage(urls: seq<string>, post: string -> Result<Reply<Json>, Error>) returns (r: Result<Reply<Json>, Error>, posted: seq<string>)
    ensures r == TryCreate(urls, post, None)
    ensures posted == urls[..Attempts(urls, post)]
  {
    var success := false;
    var last: Option<int> := None;
    var found: Reply<Json> := Reply(0, JNull);
    posted := [];
    var i := 0;
    while i < |urls|
      invariant 0 <= i <= |urls|
      invariant !success
      invariant posted == urls[..i]
      invariant forall j :: 0 <= j < i ==> !Created(post(urls[j]))
      invariant TryCreate(urls, post, None) == TryCreate(urls[i..], post, last)
    {
      assert urls[i..][0] == urls[i] && urls[i..][1..] == urls[i + 1..];
      var a := post(urls[i]);
      posted := posted + [urls[i]];
      if a.Ok? && (a.value.status == 200 || a.value.status == 201) {
        success := true;
        found := a.value;
        assert FirstCreated(urls, post) == i;
        assert urls[..i + 1] == posted;
        break;
      } else if a.Ok? {
        last := Some(a.value.status);
      }
      i := i + 1;
    }
    if !success {
      assert FirstCreated(urls, post) == |urls|;
      r := Err(EndpointsFailed(last));
    } else {
      r := Ok(found);
    }
  }

  // ---------------------------------------------------------------- publish

  /** A written page: the given title, type "page", the space, a storage body, and the parent iff one is configured. */
  predicate PagePayload(p: Payload, title: string, s: Settings) {
    && p.title == title
    && p.kind == "page" && p.representation == "storage"
    && p.space == s.space
    && p.ancestors == (if Truthy(s.parentId) then Some(s.parentId) else None)
  }

  /**
   * The success message's `result.get("_links", {}).get("webui", "")`: it raises unless
   * the answer is a dict whose `_links`, when present, is a dict too.
   */
  function Announced(body: Json): (r: Result<Json, Error>)
    ensures r.Ok? <==> body.JObj? && ("_links" !in body.fields || body.fields["_links"].JObj?)
    ensures r.Ok? ==> r.value == body
    ensures r.Err? ==> r.error.AttributeError?
  {
    if !body.JObj? then Err(AttributeError("object has no attribute 'get'"))
    else if "_links" in body.fields && !body.fields["_links"].JObj? then Err(AttributeError("object has no attribute 'get'"))
    else Ok(body)
  }

  /** The update path: read the current revision, then PUT the page with the next one. */
  function UpdatePage(base: string, title: string, html: string, existing: Json, s: Settings, w: WikiAnswers): (run: PublishRun)
    ensures |run.gets| == 1 && run.gets[0].url == base + "/wiki/rest/api/content/" + Str(existing)
    ensures CurrentNumber(w.current).Err? ==> run.writes == [] && run.outcome == Err(CurrentNumber(w.current).error)
    ensures CurrentNumber(w.current).Ok? ==>
              && |run.writes| == 1 && run.writes[0].PutPage?
              && run.writes[0].url == base + "/wiki/rest/api/content/" + Str(existing)
              && run.writes[0].payload.version == Some(CurrentNumber(w.current).value + 1)
              && run.writes[0].payload.id == Some(existing)
    ensures forall x :: x in run.writes ==> PagePayload(x.payload, title, s)
    ensures run.outcome.Ok? <==>
              && CurrentNumber(w.current).Ok? && w.update.Ok? && !FailingStatus(w.update.value.status)
              && Announced(w.update.value.body).Ok?
    ensures run.outcome.Ok? ==> run.outcome.value == Some(w.update.value.body)
  {
    var url := base + "/wiki/rest/api/content/" + Str(existing);
    var gets := [Request(url, map["expand" := PStr("version")])];
    match CurrentNumber(w.current)
    case Err(e) => PublishRun(gets, [], Err(e))
    case Ok(n) =>
      var payload := WithParent(StoragePage(title, s.space, html).(version := Some(n + 1), id := Some(existing)), s.parentId);
      var writes := [PutPage(url, payload)];
      if w.update.Err? then PublishRun(gets, writes, Err(w.update.error))
      else if FailingStatus(w.update.value.status) then PublishRun(gets, writes, Err(HttpError(w.update.value.status)))
      else match Announced(w.update.value.body)
        case Err(e) => PublishRun(gets, writes, Err(e))
        case Ok(body) => PublishRun(gets, writes, Ok(Some(body)))
  }

  /** The create path: POST to each address until one creates the page. */
  function NewPage(base: string, title: string, html: string, s: Settings, w: WikiAnswers): (run: PublishRun)
    ensures run.gets == []
    ensures run.writes == Posts(Endpoints(base)[..Attempts(Endpoints(base), w.create)],
                                WithParent(StoragePage(title, s.space, html), s.parentId))
    ensures forall x :: x in run.writes ==> x.PostPage? && PagePayload(x.payload, title, s)
  {
    var payload := WithParent(StoragePage(title, s.space, html), s.parentId);
    var urls := Endpoints(base);
    var writes := Posts(urls[..Attempts(urls, w.create)], payload);
    match TryCreate(urls, w.create, None)
    case Err(e) => PublishRun([], writes, Err(e))
    case Ok(reply) =>
      match Announced(reply.body)
      case Err(e) => PublishRun([], writes, Err(e))
      case Ok(body) => PublishRun([], writes, Ok(Some(body)))
  }

  /** `publish(version, md_path, update_existing)`. */
  function PublishSpec(version: string, updateExisting: bool, s: Settings, w: WikiAnswers): PublishRun {
    if !Credentials(s.env) then PublishRun([], [], Ok(None))
    else if w.markdown.Err? then PublishRun([], [], Err(w.markdown.error))
    else
      var base := s.env["CONFLUENCE_BASE"];
      var title := PageTitle(version);
      var lookups := if updateExisting then [PageLookupRequest(base, s.space, title)] else [];
      var existing := if updateExisting then FindExistingPage(s.env, w.lookup) else JNull;
      var html := StorageHtml(w.markdown.value);
      var run := if Truthy(existing) then UpdatePage(base, title, html, existing, s, w) else NewPage(base, title, html, s, w);
      run.(gets := lookups + run.gets)
  }

  /** The create branch of `publish`: convert, add the parent, and run the creation loop. */
  method CreateNewPage(base: string, md: string, title: string, s: Settings, w: WikiAnswers) returns (run: PublishRun)
    ensures run == NewPage(base, title, StorageHtml(md), s, w)
  {
    var page := MdToStorageFormat(md, title, s.space);
    var payload := WithParent(page, s.parentId);
    var r, posted := CreatePage(Endpoints(base), w.create);
    var writes := Posts(posted, payload);
    match r {
      case Err(e) => run := PublishRun([], writes, Err(e));
      case Ok(reply) =>
        var announced := Announced(reply.body);
        if announced.Err? {
          run := PublishRun([], writes, Err(announced.error));
        } else {
          run := PublishRun([], writes, Ok(Some(reply.body)));
        }
    }
  }

  /** `publish`: the converter and the creation loop run as the source runs them. */
  method Publish(version: string, updateExisting: bool, s: Settings, w: WikiAnswers) returns (run: PublishRun)
    ensures run == PublishSpec(version, updateExisting, s, w)
  {
    if !Credentials(s.env) {
      return PublishRun([], [], Ok(None));
    }
    if w.markdown.Err? {
      return PublishRun([], [], Err(w.markdown.error));
    }
    var base := s.env["CONFLUENCE_BASE"];
    var title := PageTitle(version);
    var lookups: seq<Request> := [];
    var existing := JNull;
    if updateExisting {
      lookups := [PageLookupRequest(base, s.space, title)];
      existing := FindExistingPage(s.env, w.lookup);
    }
    var branch;
    if Truthy(existing) {
      var page := MdToStorageFormat(w.markdown.value, title, s.space);
      branch := UpdatePage(base, title, page.html, existing, s, w);
    } else {
      branch := CreateNewPage(base, w.markdown.value, title, s, w);
    }
    run := branch.(gets := lookups + branch.gets);
  }

  // ---------------------------------------------------------------- properties of publish

  /** Without the three credentials nothing is sent and the result is None. */
  lemma NoCredentialsNoRequests(version: string, updateExisting: bool, s: Settings, w: WikiAnswers)
    requires !Credentials(s.env)
    ensures PublishSpec(version, updateExisting, s, w) == PublishRun([], [], Ok(None))
  {
  }

  /** Every page written carries the title "Release Notes - <version>", the space and the storage body. */
  lemma WritesCarryTitle(version: string, updateExisting: bool, s: Settings, w: WikiAnswers)
    ensures forall x :: x in PublishSpec(version, updateExisting, s, w).writes ==> PagePayload(x.payload, PageTitle(version), s)
  {
  }

  /** Without update_existing there is no title search and no update: only creation posts. */
  lemma NoUpdateWithoutAsking(version: string, s: Settings, w: WikiAnswers)
    ensures var run := PublishSpec(version, false, s, w);
      && run.gets == []
      && forall x :: x in run.writes ==> x.PostPage?
  {
  }

  /**
   * With update_existing and a page found, the page is updated in place with the next
   * revision number, and nothing is created.
   */
  lemma UpdateBumpsRevision(version: string, s: Settings, w: WikiAnswers)
    requires Credentials(s.env) && w.markdown.Ok?
    requires Truthy(FindExistingPage(s.env, w.lookup)) && CurrentNumber(w.current).Ok?
    ensures var run := PublishSpec(version, true, s, w);
      var id := FindExistingPage(s.env, w.lookup);
      && |run.writes| == 1 && run.writes[0].PutPage?
      && run.writes[0].url == s.env["CONFLUENCE_BASE"] + "/wiki/rest/api/content/" + Str(id)
      && run.writes[0].payload.version == Some(CurrentNumber(w.current).value + 1)
      && run.writes[0].payload.id == Some(id)
  {
    var existing := FindExistingPage(s.env, w.lookup);
    var run := UpdatePage(s.env["CONFLUENCE_BASE"], PageTitle(version), StorageHtml(w.markdown.value), existing, s, w);
    assert PublishSpec(version, true, s, w).writes == run.writes;
  }

  /**
   * Creation posts to the two addresses in order and stops at the first 200 or 201; it
   * returns that answer's body when its success message can be printed, and raises when
   * neither address created the page.
   */
  lemma CreationTriesInOrder(version: string, s: Settings, w: WikiAnswers)
    requires Credentials(s.env) && w.markdown.Ok?
    ensures var run := PublishSpec(version, false, s, w);
      var urls := Endpoints(s.env["CONFLUENCE_BASE"]);
      var k := FirstCreated(urls, w.create);
      && (run.outcome.Ok? <==> k < |urls| && Announced(w.create(urls[k]).value.body).Ok?)
      && (k < |urls| ==> |run.writes| == k + 1)
      && (k < |urls| && Announced(w.create(urls[k]).value.body).Ok? ==> run.outcome == Ok(Some(w.create(urls[k]).value.body)))
      && (k == |urls| ==> run.outcome.Err? && run.outcome.error.EndpointsFailed? && |run.writes| == 2)
      && forall i :: 0 <= i < |run.writes| ==> run.writes[i].url == urls[i]
  {
    TryCreateFirst(Endpoints(s.env["CONFLUENCE_BASE"]), w.create, None);
  }
}
