/**
 * The publishing coordinator: one document is sent to each named platform and the
 * outcomes are split into a success map and an error map. The platform adapters (wiki
 * page, forge release, chat webhook, mail, custom webhook) are modelled on the answers
 * the outside world gives them, held in a PublishWorld value.
 */
module Publishing {
  import opened Outcomes
  import opened Errors
  import opened Environment
  import opened Dicts
  import opened Text
  import opened JsonValue
  import opened Paging

  // ---------------------------------------------------------------- the outside world

  /**
   * What the adapters see: the environment, the configured repository, what the wiki
   * page publisher returns or raises, the forge's answers to the tag lookup and to the
   * write, the chat and custom webhooks' answers, whether the markdown package is
   * installed, what the mail server raises (if anything) for the message it is sent, and
   * the current time.
   */
  datatype PublishWorld = PublishWorld(
    env: Env,
    configRepo: Option<string>,
    pagePublisher: Result<Json, Error>,
    lookup: Result<Reply<Json>, Error>,
    release: Result<Reply<Json>, Error>,
    slack: Result<int, Error>,
    markdownInstalled: bool,
    smtp: Email -> Option<Error>,
    webhook: Result<int, Error>,
    now: string)

  /** What an adapter returns; the fixed `platform` and `status` entries are implied by the kind. */
  datatype Published =
    | WikiPage(pageUrl: string, pageId: Json, title: Json)   // status "published", space "MFS"
    | ForgeRelease(htmlUrl: Json, releaseId: Json)           // status "published"
    | SlackPosted                                        // status "published"
    | EmailSent(recipients: nat)                         // status "sent", "Sent to <n> recipients"
    | WebhookPosted(hookUrl: string, status: int)            // status "posted"

  /** The optional metadata; an empty dict counts as absent, as Python's `if metadata`. */
  type Metadata = map<string, Json>

  /** `metadata.get('repo') if metadata else self.config.get('repo', default)`. */
  function RepoFor(metadata: Metadata, configRepo: Option<string>, default: Json): (r: Json)
    ensures metadata != map[] ==> r == Field(metadata, "repo", JNull)
    ensures metadata == map[] && configRepo.Some? ==> r == JStr(configRepo.value)
    ensures metadata == map[] && configRepo.None? ==> r == default
  {
    if metadata != map[] then Field(metadata, "repo", JNull)
    else if configRepo.Some? then JStr(configRepo.value) else default
  }

  /** Python truthiness of an environment lookup. */
  predicate EnvSet(env: Env, key: string) {
    Given(Getenv(env, key))
  }

  // ---------------------------------------------------------------- wiki page

  /** The default wiki base when CONFLUENCE_BASE is not set. */
  const DefaultWikiBase := "https://yourcompany.atlassian.net"

  /** A non-empty web path gets the `/wiki` prefix unless it already starts with it. */
  function WikiPath(path: string): (r: string)
    ensures path == "" ==> r == ""
    ensures path != "" ==> StartsWith(r, "/wiki") && EndsWith(r, path)
    ensures StartsWith(path, "/wiki") ==> r == path
  {
    if path != "" && !StartsWith(path, "/wiki") then "/wiki" + path else path
  }

  /** Prefixing twice adds nothing: the prefix is added at most once. */
  lemma WikiPathIdempotent(path: string)
    ensures WikiPath(WikiPath(path)) == WikiPath(path)
  {
    if path != "" && !StartsWith(path, "/wiki") {
      assert ("/wiki" + path)[..5] == "/wiki";
    }
  }

  /** The page's full address: the base and the prefixed path, or "" when there is no path. */
  function PageUrl(base: string, path: string): (url: string)
    ensures url == "" <==> path == ""
    ensures path != "" ==> url == base + WikiPath(path)
  {
    var p := WikiPath(path);
    if p != "" then base + p else ""
  }

  /**
   * `_publish_confluence`: the page publisher's result (its `_links.webui` path, `id` and
   * `title`) becomes the published record. A falsy result, a result or link entry that
   * is not a dict and a truthy path that is not a string raise; every exception, the
   * publisher's own included, is re-raised wrapped as "Confluence publishing failed".
   */
  function PublishWiki(w: PublishWorld): (r: Result<Published, Error>)
    ensures r.Err? ==> r.error.ConfluenceFailed?
    ensures w.pagePublisher.Err? ==> r == Err(ConfluenceFailed(w.pagePublisher.error))
    ensures w.pagePublisher.Ok? && !Truthy(w.pagePublisher.value) ==>
      r == Err(ConfluenceFailed(Raised("No result returned from publish_to_confluence")))
    ensures r.Ok? ==>
      && r.value.WikiPage?
      && (r.value.pageUrl == "" || StartsWith(r.value.pageUrl, GetenvOr(w.env, "CONFLUENCE_BASE", DefaultWikiBase) + "/wiki"))
    ensures (w.pagePublisher.Ok? && Truthy(w.pagePublisher.value) && w.pagePublisher.value.JObj? &&
             Field(w.pagePublisher.value.fields, "_links", JObj(map[])).JObj? &&
             Field(Field(w.pagePublisher.value.fields, "_links", JObj(map[])).fields, "webui", JStr("")).JStr?) ==>
              r == Ok(WikiPage(PageUrl(GetenvOr(w.env, "CONFLUENCE_BASE", DefaultWikiBase),
                                       Field(Field(w.pagePublisher.value.fields, "_links", JObj(map[])).fields, "webui", JStr("")).s),
                               Field(w.pagePublisher.value.fields, "id", JStr("")),
                               Field(w.pagePublisher.value.fields, "title", JStr(""))))
  {
    match Wiki(w)
    case Err(e) => Err(ConfluenceFailed(e))
    case Ok(p) => Ok(p)
  }

  /** The body of the `try` in `_publish_confluence`. */
  function Wiki(w: PublishWorld): (r: Result<Published, Error>)
    ensures r.Ok? ==>
      && r.value.WikiPage?
      && (r.value.pageUrl == "" || StartsWith(r.value.pageUrl, GetenvOr(w.env, "CONFLUENCE_BASE", DefaultWikiBase) + "/wiki"))
    ensures (w.pagePublisher.Ok? && Truthy(w.pagePublisher.value) && w.pagePublisher.value.JObj? &&
             Field(w.pagePublisher.value.fields, "_links", JObj(map[])).JObj? &&
             Field(Field(w.pagePublisher.value.fields, "_links", JObj(map[])).fields, "webui", JStr("")).JStr?) ==>
              r == Ok(WikiPage(PageUrl(GetenvOr(w.env, "CONFLUENCE_BASE", DefaultWikiBase),
                                       Field(Field(w.pagePublisher.value.fields, "_links", JObj(map[])).fields, "webui", JStr("")).s),
                               Field(w.pagePublisher.value.fields, "id", JStr("")),
                               Field(w.pagePublisher.value.fields, "title", JStr(""))))
  {
    if w.pagePublisher.Err? then Err(w.pagePublisher.error)
    else
      var result := w.pagePublisher.value;
      if !Truthy(result) then Err(Raised("No result returned from publish_to_confluence"))
      else
        var base := GetenvOr(w.env, "CONFLUENCE_BASE", DefaultWikiBase);
        var links := Get(result, "_links", JObj(map[]));
        if links.Err? then Err(links.error)
        else
          var webui := Get(links.value, "webui", JStr(""));
          if webui.Err? then Err(webui.error)
          else if Truthy(webui.value) && !webui.value.JStr? then Err(AttributeError("object has no attribute 'startswith'"))
          else
            var path := if webui.value.JStr? then webui.value.s else "";
            var url := PageUrl(base, path);
            assert url != "" ==> (base + WikiPath(path))[..|base| + 5] == base + "/wiki";
            Ok(WikiPage(url, Get(result, "id", JStr("")).value, Get(result, "title", JStr("")).value))
  }

  // ---------------------------------------------------------------- forge release

  /** A version is a prerelease when it holds a `-`, or `alpha` or `beta` in any case. */
  predicate IsPrerelease(version: string) {
    Count(version, '-') > 0 || Contains(Lower(version), "alpha") || Contains(Lower(version), "beta")
  }

  /** Counting occurrences finds one exactly when the character occurs. */
  lemma {:induction false} CountPositive(s: string, c: char)
    ensures Count(s, c) > 0 <==> c in s
    decreases |s|
  {
    if s != [] {
      CountPositive(s[1..], c);
      assert s == [s[0]] + s[1..];
    }
  }

  /** The prerelease flag holds exactly for a version with a dash, or with alpha or beta in any case. */
  lemma IsPrereleaseIff(version: string)
    ensures IsPrerelease(version) <==> '-' in version || Contains(Lower(version), "alpha") || Contains(Lower(version), "beta")
  {
    CountPositive(version, '-');
  }

  /** The release the forge is asked to create or update. */
  datatype ReleasePayload = ReleasePayload(tagName: string, name: string, body: string, draft: bool, prerelease: bool)

  /** The write the forge adapter sends: an update of an existing release or a creation. */
  datatype ReleaseWrite = Patch(url: string, payload: ReleasePayload) | Post(url: string, payload: ReleasePayload)

  function ReleasePayloadFor(version: string, content: string): (p: ReleasePayload)
    ensures p.tagName == version && p.name == "Release " + version && p.body == content && !p.draft
    ensures p.prerelease <==> IsPrerelease(version)
  {
    ReleasePayload(version, "Release " + version, content, false, IsPrerelease(version))
  }

  /** `existing_response.json()['id']`: a dict without `id` and any other body raise. */
  function ReleaseId(body: Json): (r: Result<Json, Error>)
    ensures r.Ok? <==> body.JObj? && "id" in body.fields
    ensures r.Ok? ==> r.value == body.fields["id"]
  {
    if !body.JObj? then Err(TypeError("indices must be integers"))
    else if "id" !in body.fields then Err(KeyError("id"))
    else Ok(body.fields["id"])
  }

  /**
   * The write `_publish_github_release` sends. A missing token or repository raises the
   * ValueError before anything is sent; the tag lookup's own exception propagates; a 200
   * lookup leads to a PATCH of that release's id, any other status to a POST creation.
   */
  function ReleaseWriteFor(version: string, content: string, metadata: Metadata, w: PublishWorld): (r: Result<ReleaseWrite, Error>)
    ensures var repo := RepoFor(metadata, w.configRepo, JNull);
      && (!EnvSet(w.env, "GITHUB_TOKEN") || !Truthy(repo) ==> r == Err(ValueError("GitHub token and repository required")))
      && (EnvSet(w.env, "GITHUB_TOKEN") && Truthy(repo) && w.lookup.Err? ==> r == Err(w.lookup.error))
      && (EnvSet(w.env, "GITHUB_TOKEN") && Truthy(repo) && w.lookup.Ok? && w.lookup.value.status == 200 ==>
            (r.Ok? <==> ReleaseId(w.lookup.value.body).Ok?) &&
            (r.Ok? ==> r.value == Patch("https://api.github.com/repos/" + Str(repo) + "/releases/" + Str(ReleaseId(w.lookup.value.body).value),
                                        ReleasePayloadFor(version, content))))
      && (EnvSet(w.env, "GITHUB_TOKEN") && Truthy(repo) && w.lookup.Ok? && w.lookup.value.status != 200 ==>
            r == Ok(Post("https://api.github.com/repos/" + Str(repo) + "/releases", ReleasePayloadFor(version, content))))
  {
    var repo := RepoFor(metadata, w.configRepo, JNull);
    if !EnvSet(w.env, "GITHUB_TOKEN") || !Truthy(repo) then Err(ValueError("GitHub token and repository required"))
    else if w.lookup.Err? then Err(w.lookup.error)
    else
      var payload := ReleasePayloadFor(version, content);
      if w.lookup.value.status == 200 then
        match ReleaseId(w.lookup.value.body)
        case Err(e) => Err(e)
        case Ok(id) => Ok(Patch("https://api.github.com/repos/" + Str(repo) + "/releases/" + Str(id), payload))
      else Ok(Post("https://api.github.com/repos/" + Str(repo) + "/releases", payload))
  }

  /** The tag lookup is sent exactly when the token and repository checks pass. */
  function ReleaseLookupUrl(version: string, metadata: Metadata, w: PublishWorld): (url: Option<string>)
    ensures url.Some? <==> EnvSet(w.env, "GITHUB_TOKEN") && Truthy(RepoFor(metadata, w.configRepo, JNull))
  {
    var repo := RepoFor(metadata, w.configRepo, JNull);
    if EnvSet(w.env, "GITHUB_TOKEN") && Truthy(repo) then
      Some("https://api.github.com/repos/" + Str(repo) + "/releases/tags/" + version)
    else None
  }

  /**
   * `_publish_github_release`: after the write, raise_for_status, then the release's
   * `html_url` and `id` from the answer (which must be a dict).
   */
  function PublishForge(version: string, content: string, metadata: Metadata, w: PublishWorld): (r: Result<Published, Error>)
    ensures ReleaseWriteFor(version, content, metadata, w).Err? ==> r == Err(ReleaseWriteFor(version, content, metadata, w).error)
    ensures r.Ok? ==>
              && ReleaseWriteFor(version, content, metadata, w).Ok?
              && w.release.Ok?
              && !FailingStatus(w.release.value.status)
              && w.release.value.body.JObj?
              && r.value.ForgeRelease?
    ensures (ReleaseWriteFor(version, content, metadata, w).Ok? && w.release.Err?) ==> r == Err(w.release.error)
    ensures (ReleaseWriteFor(version, content, metadata, w).Ok? && w.release.Ok? && FailingStatus(w.release.value.status)) ==>
              r == Err(HttpError(w.release.value.status))
    ensures (ReleaseWriteFor(version, content, metadata, w).Ok? && w.release.Ok? && !FailingStatus(w.release.value.status) &&
             !w.release.value.body.JObj?) ==>
              r == Err(AttributeError("object has no attribute 'get'"))
    ensures (ReleaseWriteFor(version, content, metadata, w).Ok? && w.release.Ok? && !FailingStatus(w.release.value.status) &&
             w.release.value.body.JObj?) ==>
              r == Ok(ForgeRelease(Field(w.release.value.body.fields, "html_url", JStr("")),
                                   Field(w.release.value.body.fields, "id", JStr(""))))
  {
    match ReleaseWriteFor(version, content, metadata, w)
    case Err(e) => Err(e)
    case Ok(_) =>
      if w.release.Err? then Err(w.release.error)
      else if FailingStatus(w.release.value.status) then Err(HttpError(w.release.value.status))
      else
        var body := w.release.value.body;
        if !body.JObj? then Err(AttributeError("object has no attribute 'get'"))
        else Ok(ForgeRelease(Field(body.fields, "html_url", JStr("")), Field(body.fields, "id", JStr(""))))
  }

  // ---------------------------------------------------------------- highlights

  /** A heading that opens the highlights section: a `#` line mentioning "highlight" in any case. */
  predicate HighlightHeading(line: string) {
    Contains(Lower(line), "highlight") && StartsWith(line, "#")
  }

  /**
   * What the highlight loops test of a stripped line, in their order: a highlights
   * heading, another `#` line, a `-` bullet, a `*` bullet, anything else.
   */
  datatype LineKind = HighlightHead | Heading | Dash | Star | PlainLine

  /** A line as the loops see it: its kind and, for a bullet, the stripped text after its marker. */
  datatype ScanLine = ScanLine(kind: LineKind, text: string)

  /** `line = line.strip()` and the loops' tests on it. */
  function Classify(raw: string): (l: ScanLine)
    ensures l.kind == HighlightHead <==> HighlightHeading(Strip(raw))
    ensures l.kind == Heading <==> StartsWith(Strip(raw), "#") && !HighlightHeading(Strip(raw))
    ensures l.kind == Dash <==> StartsWith(Strip(raw), "-")
    ensures l.kind == Star <==> StartsWith(Strip(raw), "*")
    ensures (l.kind == Dash || l.kind == Star) ==> l.text == Strip(Strip(raw)[1..])
  {
    var line := Strip(raw);
    if HighlightHeading(line) then ScanLine(HighlightHead, "")
    else if StartsWith(line, "#") then ScanLine(Heading, "")
    else if StartsWith(line, "-") then ScanLine(Dash, Strip(line[1..]))
    else if StartsWith(line, "*") then ScanLine(Star, Strip(line[1..]))
    else ScanLine(PlainLine, "")
  }

  function ClassifyAll(lines: seq<string>): (ls: seq<ScanLine>)
    ensures |ls| == |lines| && forall i :: 0 <= i < |lines| ==> ls[i] == Classify(lines[i])
  {
    seq(|lines|, i requires 0 <= i < |lines| => Classify(lines[i]))
  }

  predicate IsBullet(l: ScanLine) {
    l.kind == Dash || l.kind == Star
  }

  /**
   * The first pass from `lines`, inside the section or not, having collected `acc`. A
   * highlights heading opens the section and a later `#` line ends the pass. As written,
   * `in_highlights and line.startswith('-') or line.startswith('*')` groups as
   * `(in_highlights and -) or *`, so `*` lines are collected anywhere. The pass ends once
   * `maxItems` items are held.
   */
  function SectionScan(lines: seq<ScanLine>, inSection: bool, acc: seq<string>, maxItems: int): seq<string>
    decreases |lines|
  {
    if lines == [] then acc
    else
      var l := lines[0];
      if l.kind == HighlightHead then SectionScan(lines[1..], true, acc, maxItems)
      else if l.kind == Heading && inSection then acc
      else if (inSection && l.kind == Dash) || l.kind == Star then
        var acc' := acc + [l.text];
        if |acc'| >= maxItems then acc' else SectionScan(lines[1..], inSection, acc', maxItems)
      else SectionScan(lines[1..], inSection, acc, maxItems)
  }

  /** The fallback pass: every bullet line of the document, until `maxItems` are held. */
  function BulletScan(lines: seq<ScanLine>, acc: seq<string>, maxItems: int): seq<string>
    decreases |lines|
  {
    if lines == [] then acc
    else if IsBullet(lines[0]) then
      var acc' := acc + [lines[0].text];
      if |acc'| >= maxItems then acc' else BulletScan(lines[1..], acc', maxItems)
    else BulletScan(lines[1..], acc, maxItems)
  }

  /** The highlight items of classified lines: the first pass, or the fallback pass when it found nothing, cut to `maxItems`. */
  function ItemsOf(lines: seq<ScanLine>, maxItems: int): seq<string> {
    var first := SectionScan(lines, false, [], maxItems);
    SliceTo(if first != [] then first else BulletScan(lines, [], maxItems), maxItems)
  }

  /** The highlight items of a document. */
  function HighlightItems(content: string, maxItems: int): seq<string> {
    ItemsOf(ClassifyAll(Split(content, '\n')), maxItems)
  }

  /**
   * The glyph each highlight line starts with. The source file holds the bullet `•`
   * encoded twice, so the literal is the three characters U+00E2 U+20AC U+00A2.
   */
  const Dot := "\U{E2}\U{20AC}\U{A2} "

  function BulletLines(items: seq<string>): (r: seq<string>)
    ensures |r| == |items| && forall i :: 0 <= i < |items| ==> r[i] == Dot + items[i]
  {
    seq(|items|, i requires 0 <= i < |items| => Dot + items[i])
  }

  /** `_extract_highlights`: the items, one line per item, behind the glyph. */
  function Highlights(content: string, maxItems: int): string {
    Join(BulletLines(HighlightItems(content, maxItems)), "\n")
  }

  /** The first pass keeps what it held in front and never holds more than the bound. */
  lemma {:induction false} SectionScanBound(lines: seq<ScanLine>, inSection: bool, acc: seq<string>, maxItems: int)
    requires |acc| < maxItems
    ensures |acc| <= |SectionScan(lines, inSection, acc, maxItems)| <= maxItems
    ensures SectionScan(lines, inSection, acc, maxItems)[..|acc|] == acc
    decreases |lines|
  {
    if lines != [] {
      var l := lines[0];
      if l.kind == HighlightHead {
        SectionScanBound(lines[1..], true, acc, maxItems);
      } else if l.kind == Heading && inSection {
      } else if (inSection && l.kind == Dash) || l.kind == Star {
        var acc' := acc + [l.text];
        if |acc'| < maxItems {
          SectionScanBound(lines[1..], inSection, acc', maxItems);
          var r := SectionScan(lines[1..], inSection, acc', maxItems);
          assert r[..|acc|] == r[..|acc'|][..|acc|];
        }
      } else {
        SectionScanBound(lines[1..], inSection, acc, maxItems);
      }
    }
  }

  /** The texts of all bullet lines of the document, in order. */
  function BulletTexts(lines: seq<ScanLine>): seq<string>
    decreases |lines|
  {
    if lines == [] then []
    else (if IsBullet(lines[0]) then [lines[0].text] else []) + BulletTexts(lines[1..])
  }

  lemma SliceToCons(x: string, rest: seq<string>, n: nat)
    ensures SliceTo([x] + rest, n + 1) == [x] + SliceTo(rest, n)
  {
  }

  /** The fallback pass takes the first bullet texts of the document, as many as still wanted. */
  lemma {:induction false} BulletScanTakesFirst(lines: seq<ScanLine>, acc: seq<string>, maxItems: int)
    requires |acc| < maxItems
    ensures BulletScan(lines, acc, maxItems) == acc + SliceTo(BulletTexts(lines), maxItems - |acc|)
    decreases |lines|
  {
    if lines == [] {
      assert SliceTo(BulletTexts(lines), maxItems - |acc|) == [];
    } else {
      var rest := BulletTexts(lines[1..]);
      if IsBullet(lines[0]) {
        var t := lines[0].text;
        var acc' := acc + [t];
        var n: nat := maxItems - |acc'|;
        SliceToCons(t, rest, n);
        if |acc'| < maxItems {
          BulletScanTakesFirst(lines[1..], acc', maxItems);
          assert acc' + SliceTo(rest, n) == acc + ([t] + SliceTo(rest, n));
        } else {
          assert SliceTo(rest, 0) == [];
        }
      } else {
        BulletScanTakesFirst(lines[1..], acc, maxItems);
      }
    }
  }

  /** Every item the first pass adds is the text of a bullet line of the document. */
  lemma {:induction false} SectionScanFromBullets(lines: seq<ScanLine>, inSection: bool, acc: seq<string>, maxItems: int)
    ensures var r := SectionScan(lines, inSection, acc, maxItems);
      && |acc| <= |r| && r[..|acc|] == acc
      && forall k :: |acc| <= k < |r| ==> r[k] in BulletTexts(lines)
    decreases |lines|
  {
    if lines != [] {
      var l := lines[0];
      var r := SectionScan(lines, inSection, acc, maxItems);
      if l.kind == HighlightHead {
        SectionScanFromBullets(lines[1..], true, acc, maxItems);
      } else if l.kind == Heading && inSection {
      } else if (inSection && l.kind == Dash) || l.kind == Star {
        var acc' := acc + [l.text];
        if |acc'| < maxItems {
          SectionScanFromBullets(lines[1..], inSection, acc', maxItems);
          assert r[..|acc|] == r[..|acc'|][..|acc|];
          assert r[|acc|] == r[..|acc'|][|acc|] == l.text;
        }
      } else {
        SectionScanFromBullets(lines[1..], inSection, acc, maxItems);
      }
    }
  }

  /**
   * At most `maxItems` highlights (for a bound of at least one), each the text of a bullet
   * line; the fallback pass is used only when the first pass found nothing, and then
   * gives the document's first bullet texts.
   */
  lemma ItemsOfSpec(lines: seq<ScanLine>, maxItems: int)
    requires maxItems >= 1
    ensures |ItemsOf(lines, maxItems)| <= maxItems
    ensures forall item :: item in ItemsOf(lines, maxItems) ==> item in BulletTexts(lines)
    ensures SectionScan(lines, false, [], maxItems) != [] ==>
              ItemsOf(lines, maxItems) == SectionScan(lines, false, [], maxItems)
    ensures SectionScan(lines, false, [], maxItems) == [] ==>
              ItemsOf(lines, maxItems) == SliceTo(BulletTexts(lines), maxItems)
  {
    var first := SectionScan(lines, false, [], maxItems);
    SectionScanBound(lines, false, [], maxItems);
    SectionScanFromBullets(lines, false, [], maxItems);
    BulletScanTakesFirst(lines, [], maxItems);
    assert SliceTo(first, maxItems) == first;
    var fallback := BulletScan(lines, [], maxItems);
    assert SliceTo(fallback, maxItems) == fallback;
  }

  /**
   * The grouping quirk: outside the highlights section a `*` line is collected by the
   * first pass while a `-` line is not.
   */
  lemma StarCountsOutsideSection(lines: seq<ScanLine>, maxItems: int)
    requires lines != [] && maxItems > 1
    ensures lines[0].kind == Star ==>
              SectionScan(lines, false, [], maxItems) == SectionScan(lines[1..], false, [lines[0].text], maxItems)
    ensures lines[0].kind == Dash ==>
              SectionScan(lines, false, [], maxItems) == SectionScan(lines[1..], false, [], maxItems)
  {
    assert [] + [lines[0].text] == [lines[0].text];
  }

  /** `_extract_highlights`: the section loop, then the fallback loop when it found nothing. */
  method ExtractHighlights(content: string, maxItems: int) returns (r: string)
    ensures r == Highlights(content, maxItems)
  {
    var lines := ClassifyAll(Split(content, '\n'));
    var highlights := SectionLoop(lines, maxItems);
    if highlights == [] {
      highlights := FallbackLoop(lines, maxItems);
    }
    r := Join(BulletLines(SliceTo(highlights, maxItems)), "\n");
  }

  /** The first loop of `_extract_highlights`, with its early exits. */
  method SectionLoop(lines: seq<ScanLine>, maxItems: int) returns (highlights: seq<string>)
    ensures highlights == SectionScan(lines, false, [], maxItems)
  {
    highlights := [];
    var inSection := false;
    var i := 0;
    assert lines[i..] == lines;
    while i < |lines|
      invariant 0 <= i <= |lines|
      invariant SectionScan(lines, false, [], maxItems) == SectionScan(lines[i..], inSection, highlights, maxItems)
    {
      assert lines[i..][1..] == lines[i + 1..];
      var line := lines[i];
      if line.kind == HighlightHead {
        inSection := true;
        i := i + 1;
        continue;
      } else if line.kind == Heading && inSection {
        return;
      } else if (inSection && line.kind == Dash) || line.kind == Star {
        highlights := highlights + [line.text];
        if |highlights| >= maxItems {
          return;
        }
      }
      i := i + 1;
    }
  }

  /** The fallback loop of `_extract_highlights`. */
  method FallbackLoop(lines: seq<ScanLine>, maxItems: int) returns (highlights: seq<string>)
    ensures highlights == BulletScan(lines, [], maxItems)
  {
    highlights := [];
    var i := 0;
    assert lines[i..] == lines;
    while i < |lines|
      invariant 0 <= i <= |lines|
      invariant BulletScan(lines, [], maxItems) == BulletScan(lines[i..], highlights, maxItems)
    {
      assert lines[i..][1..] == lines[i + 1..];
      if IsBullet(lines[i]) {
        highlights := highlights + [lines[i].text];
        if |highlights| >= maxItems {
          return;
        }
      }
      i := i + 1;
    }
  }

  // ---------------------------------------------------------------- chat, mail, webhook

  /** The chat message: its text, header, highlights section and the release page button. */
  datatype SlackMessage = SlackMessage(text: string, header: string, highlights: string, buttonUrl: string)

  /** The rocket glyph the chat message starts with, also encoded twice in the source file. */
  const Rocket := "\U{F0}\U{178}\U{161}\U{20AC}"

  function SlackMessageFor(version: string, content: string, metadata: Metadata, w: PublishWorld): (m: SlackMessage)
    ensures m.highlights == "*Highlights:*\n" + Highlights(content, 3)
    ensures m.buttonUrl == "https://github.com/" + Str(RepoFor(metadata, w.configRepo, JStr("Unknown"))) + "/releases/tag/" + version
  {
    var repo := Str(RepoFor(metadata, w.configRepo, JStr("Unknown")));
    SlackMessage(Rocket + " New Release: " + version, Rocket + " " + repo + " - Release " + version,
      "*Highlights:*\n" + Highlights(content, 3), "https://github.com/" + repo + "/releases/tag/" + version)
  }

  /** `_publish_slack`: SLACK_WEBHOOK_URL must be set; the post's failing status raises. */
  function PublishSlack(w: PublishWorld): (r: Result<Published, Error>)
    ensures !EnvSet(w.env, "SLACK_WEBHOOK_URL") ==> r == Err(ValueError("SLACK_WEBHOOK_URL not configured"))
    ensures r.Ok? <==> EnvSet(w.env, "SLACK_WEBHOOK_URL") && w.slack.Ok? && !FailingStatus(w.slack.value)
    ensures r.Ok? ==> r.value == SlackPosted
  {
    if !EnvSet(w.env, "SLACK_WEBHOOK_URL") then Err(ValueError("SLACK_WEBHOOK_URL not configured"))
    else if w.slack.Err? then Err(w.slack.error)
    else if FailingStatus(w.slack.value) then Err(HttpError(w.slack.value))
    else Ok(SlackPosted)
  }

  /** Python's int() on a text: optional surrounding blanks, an optional sign, decimal digits. */
  function PyInt(s: string): Option<int>
  {
    var t := Strip(s);
    var neg := t != "" && t[0] == '-';
    var digits := if t != "" && (t[0] == '-' || t[0] == '+') then t[1..] else t;
    if digits == "" || exists i :: 0 <= i < |digits| && !IsDigit(digits[i]) then None
    else Some(if neg then -(ParseNat(digits) as int) else ParseNat(digits) as int)
  }

  /** EMAIL_RECIPIENTS split on commas; unset gives the empty text. */
  function Recipients(env: Env): (r: seq<string>)
    ensures |r| >= 1
  {
    Split(GetenvOr(env, "EMAIL_RECIPIENTS", ""), ',')
  }

  /** The recipient check `not recipients` never holds: a split always has at least one part. */
  lemma RecipientCheckNeverFires(env: Env)
    ensures Recipients(env) != []
    ensures !("EMAIL_RECIPIENTS" in env) ==> Recipients(env) == [""]
  {
    if "EMAIL_RECIPIENTS" !in env {
      assert Find("", ',') == 0;
    }
  }

  /**
   * `_markdown_to_html`. When the markdown package is installed the local import rebinds
   * the parameter's name to the module, which is then passed as the text, and the call
   * raises. Otherwise line breaks become `<br>`, every `**` becomes `</strong>` and then
   * every `*` becomes `</em>` (the second replacement of each pair finds nothing left).
   */
  function MarkdownToHtml(markdown: string, installed: bool): (r: Result<string, Error>)
    ensures installed <==> r.Err?
  {
    if installed then Err(AttributeError("'module' object has no attribute 'strip'"))
    else
      var html := ReplaceAll(markdown, "\n", "<br>");
      var html := ReplaceAll(ReplaceAll(html, "**", "</strong>"), "**", "<strong>");
      var html := ReplaceAll(ReplaceAll(html, "*", "</em>"), "*", "<em>");
      Ok("<html><body>" + html + "</body></html>")
  }

  /** The message `_publish_email` sends. */
  datatype Email = Email(subject: string, sender: string, to: string, text: string, html: string)

  /** SMTP_PORT parses and host, user and password are all set: the settings `_publish_email` checks. */
  predicate EmailConfigured(env: Env) {
    && PyInt(GetenvOr(env, "SMTP_PORT", "587")).Some?
    && EnvSet(env, "SMTP_HOST") && EnvSet(env, "SMTP_USER") && EnvSet(env, "SMTP_PASSWORD")
  }

  /** The message an email publication sends. */
  function EmailFor(version: string, content: string, w: PublishWorld, html: string): (m: Email)
    ensures m.subject == "Release Notes - " + version && m.text == content && m.html == html
    ensures m.to == Join(Recipients(w.env), ", ")
  {
    Email("Release Notes - " + version, Str(if "SMTP_USER" in w.env then JStr(w.env["SMTP_USER"]) else JNull),
      Join(Recipients(w.env), ", "), content, html)
  }

  /**
   * `_publish_email`: SMTP_PORT (default 587) must parse as an integer, before anything
   * else; host, user and password must be set; the recipient list is never empty. The
   * message carries the HTML part, and the mail server's answer to it decides the outcome.
   */
  function PublishEmail(version: string, content: string, w: PublishWorld): (r: Result<Published, Error>)
    ensures PyInt(GetenvOr(w.env, "SMTP_PORT", "587")).None? ==> r.Err? && r.error.ValueError?
    ensures (PyInt(GetenvOr(w.env, "SMTP_PORT", "587")).Some?
             && !(EnvSet(w.env, "SMTP_HOST") && EnvSet(w.env, "SMTP_USER") && EnvSet(w.env, "SMTP_PASSWORD")))
            ==> r == Err(ValueError("Email configuration incomplete"))
    ensures EmailConfigured(w.env) && w.markdownInstalled ==> r.Err? && r.error.AttributeError?
    ensures EmailConfigured(w.env) && !w.markdownInstalled ==>
      var m := EmailFor(version, content, w, MarkdownToHtml(content, false).value);
      && (w.smtp(m).Some? ==> r == Err(w.smtp(m).value))
      && (w.smtp(m).None? ==> r == Ok(EmailSent(|Recipients(w.env)|)))
    ensures r.Ok? <==> EmailConfigured(w.env) && !w.markdownInstalled
                       && w.smtp(EmailFor(version, content, w, MarkdownToHtml(content, false).value)).None?
  {
    if PyInt(GetenvOr(w.env, "SMTP_PORT", "587")).None? then Err(ValueError("invalid literal for int() with base 10"))
    else
      var recipients := Recipients(w.env);
      if !(EnvSet(w.env, "SMTP_HOST") && EnvSet(w.env, "SMTP_USER") && EnvSet(w.env, "SMTP_PASSWORD")) || recipients == [] then
        Err(ValueError("Email configuration incomplete"))
      else
        var html := MarkdownToHtml(content, w.markdownInstalled);
        if html.Err? then Err(html.error)
        else
          var m := EmailFor(version, content, w, html.value);
          if w.smtp(m).Some? then Err(w.smtp(m).value)
          else Ok(EmailSent(|recipients|))
  }

  /** The custom webhook's payload. */
  datatype WebhookPayload = WebhookPayload(version: string, content: string, metadata: Metadata, timestamp: string, repo: Json)

  /** The custom webhook's request: its address, payload and headers. */
  datatype WebhookRequest = WebhookRequest(url: string, payload: WebhookPayload, headers: map<string, string>)

  /**
   * The custom webhook's request: JSON content type, plus a Bearer authorisation exactly
   * when WEBHOOK_AUTH_TOKEN is set.
   */
  function WebhookRequestFor(version: string, content: string, metadata: Metadata, w: PublishWorld): (q: Option<WebhookRequest>)
    ensures q.Some? <==> EnvSet(w.env, "CUSTOM_WEBHOOK_URL")
    ensures q.Some? ==>
      && q.value.url == w.env["CUSTOM_WEBHOOK_URL"]
      && q.value.payload == WebhookPayload(version, content, metadata, w.now, RepoFor(metadata, w.configRepo, JNull))
      && "Content-Type" in q.value.headers && q.value.headers["Content-Type"] == "application/json"
      && ("Authorization" in q.value.headers <==> EnvSet(w.env, "WEBHOOK_AUTH_TOKEN"))
      && (EnvSet(w.env, "WEBHOOK_AUTH_TOKEN") ==> q.value.headers["Authorization"] == "Bearer " + w.env["WEBHOOK_AUTH_TOKEN"])
  {
    if !EnvSet(w.env, "CUSTOM_WEBHOOK_URL") then None
    else
      var headers := map["Content-Type" := "application/json"];
      var headers := if EnvSet(w.env, "WEBHOOK_AUTH_TOKEN") then headers["Authorization" := "Bearer " + w.env["WEBHOOK_AUTH_TOKEN"]] else headers;
      Some(WebhookRequest(w.env["CUSTOM_WEBHOOK_URL"],
        WebhookPayload(version, content, metadata, w.now, RepoFor(metadata, w.configRepo, JNull)), headers))
  }

  /** `_publish_webhook`: CUSTOM_WEBHOOK_URL must be set; the post's failing status raises. */
  function PublishWebhook(version: string, content: string, metadata: Metadata, w: PublishWorld): (r: Result<Published, Error>)
    ensures !EnvSet(w.env, "CUSTOM_WEBHOOK_URL") ==> r == Err(ValueError("CUSTOM_WEBHOOK_URL not configured"))
    ensures r.Ok? ==>
              && EnvSet(w.env, "CUSTOM_WEBHOOK_URL")
              && w.webhook.Ok?
              && r.value == WebhookPosted(w.env["CUSTOM_WEBHOOK_URL"], w.webhook.value)
              && !FailingStatus(w.webhook.value)
    ensures EnvSet(w.env, "CUSTOM_WEBHOOK_URL") && w.webhook.Err? ==> r == Err(w.webhook.error)
    ensures EnvSet(w.env, "CUSTOM_WEBHOOK_URL") && w.webhook.Ok? && FailingStatus(w.webhook.value) ==>
              r == Err(HttpError(w.webhook.value))
    ensures EnvSet(w.env, "CUSTOM_WEBHOOK_URL") && w.webhook.Ok? && !FailingStatus(w.webhook.value) ==>
              r == Ok(WebhookPosted(w.env["CUSTOM_WEBHOOK_URL"], w.webhook.value))
  {
    match WebhookRequestFor(version, content, metadata, w)
    case None => Err(ValueError("CUSTOM_WEBHOOK_URL not configured"))
    case Some(q) =>
      if w.webhook.Err? then Err(w.webhook.error)
      else if FailingStatus(w.webhook.value) then Err(HttpError(w.webhook.value))
      else Ok(WebhookPosted(q.url, w.webhook.value))
  }

  // ---------------------------------------------------------------- the coordinator

  /** The platforms the service knows, in the order of its table. */
  const PlatformNames: seq<string> := ["confluence", "github", "slack", "email", "webhook"]

  /** One platform's adapter; an unknown name has none. */
  function Adapter(platform: string, version: string, content: string, metadata: Metadata, w: PublishWorld)
    : Result<Published, Error>
    requires platform in PlatformNames
  {
    if platform == "confluence" then PublishWiki(w)
    else if platform == "github" then PublishForge(version, content, metadata, w)
    else if platform == "slack" then PublishSlack(w)
    else if platform == "email" then PublishEmail(version, content, w)
    else PublishWebhook(version, content, metadata, w)
  }

  /** What one requested name records: its adapter's result, or the unsupported-platform error. */
  function Attempt(platform: string, version: string, content: string, metadata: Metadata, w: PublishWorld)
    : (r: Result<Published, Error>)
    ensures platform !in PlatformNames ==> r == Err(Plain("Unsupported platform: " + platform))
  {
    if platform !in PlatformNames then Err(Plain("Unsupported platform: " + platform))
    else Adapter(platform, version, content, metadata, w)
  }

  /** The result of a publication: the success and error maps and their key lists. */
  datatype PublishResult = PublishResult(success: Dict<Published>, errors: Dict<Error>, publishedTo: seq<string>, failedTo: seq<string>)

  /** The two maps after the given names, in order. */
  function Tally(platforms: seq<string>, version: string, content: string, metadata: Metadata, w: PublishWorld)
    : (Dict<Published>, Dict<Error>)
    decreases |platforms|
  {
    if platforms == [] then ([], [])
    else
      var (results, errors) := Tally(platforms[..|platforms| - 1], version, content, metadata, w);
      var p := platforms[|platforms| - 1];
      match Attempt(p, version, content, metadata, w)
      case Ok(v) => (Put(results, p, v), errors)
      case Err(e) => (results, Put(errors, p, e))
  }

  /** One more requested name adds its attempt's result to the tally of the names before it. */
  lemma TallyStep(platforms: seq<string>, i: nat, version: string, content: string, metadata: Metadata, w: PublishWorld)
    requires i < |platforms|
    ensures var before := Tally(platforms[..i], version, content, metadata, w);
      var a := Attempt(platforms[i], version, content, metadata, w);
      Tally(platforms[..i + 1], version, content, metadata, w)
        == if a.Ok? then (Put(before.0, platforms[i], a.value), before.1) else (before.0, Put(before.1, platforms[i], a.error))
  {
    assert platforms[..i + 1][..i] == platforms[..i];
  }

  /** `publish_release_notes` as a value: both maps and their keys. */
  function PublishAll(platforms: seq<string>, version: string, content: string, metadata: Metadata, w: PublishWorld)
    : PublishResult
  {
    var (results, errors) := Tally(platforms, version, content, metadata, w);
    PublishResult(results, errors, Keys(results), Keys(errors))
  }

  /** The names whose attempt succeeds, or fails, in request order. */
  function Succeeding(platforms: seq<string>, version: string, content: string, metadata: Metadata, w: PublishWorld, ok: bool)
    : seq<string>
    decreases |platforms|
  {
    if platforms == [] then []
    else
      var p := platforms[|platforms| - 1];
      Succeeding(platforms[..|platforms| - 1], version, content, metadata, w, ok)
      + (if Attempt(p, version, content, metadata, w).Ok? == ok then [p] else [])
  }

  lemma SucceedingWithin(platforms: seq<string>, version: string, content: string, metadata: Metadata, w: PublishWorld, ok: bool)
    ensures forall q :: q in Succeeding(platforms, version, content, metadata, w, ok) ==> q in platforms
    decreases |platforms|
  {
    if platforms != [] {
      SucceedingWithin(platforms[..|platforms| - 1], version, content, metadata, w, ok);
    }
  }

  /**
   * For a list without repeated names, the published names are exactly the names whose
   * attempt succeeds and the failed names exactly the others, each in request order; so
   * every requested name lands in exactly one of the two lists.
   */
  lemma {:induction false} PublishPartition(platforms: seq<string>, version: string, content: string, metadata: Metadata, w: PublishWorld)
    requires forall i, j :: 0 <= i < j < |platforms| ==> platforms[i] != platforms[j]
    ensures PublishAll(platforms, version, content, metadata, w).publishedTo == Succeeding(platforms, version, content, metadata, w, true)
    ensures PublishAll(platforms, version, content, metadata, w).failedTo == Succeeding(platforms, version, content, metadata, w, false)
    decreases |platforms|
  {
    if platforms != [] {
      var init := platforms[..|platforms| - 1];
      var p := platforms[|platforms| - 1];
      PublishPartition(init, version, content, metadata, w);
      SucceedingWithin(init, version, content, metadata, w, true);
      SucceedingWithin(init, version, content, metadata, w, false);
      assert p !in init;
      var (results, errors) := Tally(init, version, content, metadata, w);
      assert Keys(results) == Succeeding(init, version, content, metadata, w, true);
      assert Keys(errors) == Succeeding(init, version, content, metadata, w, false);
      match Attempt(p, version, content, metadata, w)
      case Ok(v) =>
        assert Keys(results + [(p, v)]) == Keys(results) + [p];
      case Err(e) =>
        assert Keys(errors + [(p, e)]) == Keys(errors) + [p];
    }
  }

  /** In a partition every name of a repetition-free request is in exactly one list. */
  lemma PublishExactlyOnce(platforms: seq<string>, version: string, content: string, metadata: Metadata, w: PublishWorld, q: string)
    requires forall i, j :: 0 <= i < j < |platforms| ==> platforms[i] != platforms[j]
    requires q in platforms
    ensures var r := PublishAll(platforms, version, content, metadata, w);
      (q in r.publishedTo) != (q in r.failedTo)
    ensures q in PublishAll(platforms, version, content, metadata, w).publishedTo <==> Attempt(q, version, content, metadata, w).Ok?
    decreases |platforms|
  {
    PublishPartition(platforms, version, content, metadata, w);
    SucceedingMembers(platforms, version, content, metadata, w, q);
  }

  lemma {:induction false} SucceedingMembers(platforms: seq<string>, version: string, content: string, metadata: Metadata, w: PublishWorld, q: string)
    requires q in platforms
    ensures q in Succeeding(platforms, version, content, metadata, w, true) <==> Attempt(q, version, content, metadata, w).Ok?
    ensures q in Succeeding(platforms, version, content, metadata, w, false) <==> !Attempt(q, version, content, metadata, w).Ok?
    decreases |platforms|
  {
    var init := platforms[..|platforms| - 1];
    var p := platforms[|platforms| - 1];
    SucceedingWithin(init, version, content, metadata, w, true);
    SucceedingWithin(init, version, content, metadata, w, false);
    if q in init {
      SucceedingMembers(init, version, content, metadata, w, q);
    } else {
      assert q == p;
    }
  }

  /**
   * `publish_release_notes`: one attempt per requested name, in order; a failure is
   * recorded and the loop goes on.
   */
  method PublishReleaseNotes(version: string, content: string, platforms: seq<string>, metadata: Metadata, w: PublishWorld)
    returns (r: PublishResult)
    ensures r == PublishAll(platforms, version, content, metadata, w)
  {
    var results: Dict<Published> := [];
    var errors: Dict<Error> := [];
    var i := 0;
    while i < |platforms|
      invariant 0 <= i <= |platforms|
      invariant Tally(platforms[..i], version, content, metadata, w) == (results, errors)
    {
      TallyStep(platforms, i, version, content, metadata, w);
      var platform := platforms[i];
      if platform !in PlatformNames {
        errors := Put(errors, platform, Plain("Unsupported platform: " + platform));
        i := i + 1;
        continue;
      }
      var result := Adapter(platform, version, content, metadata, w);
      if result.Ok? {
        results := Put(results, platform, result.value);
      } else {
        errors := Put(errors, platform, result.error);
      }
      i := i + 1;
    }
    assert platforms[..i] == platforms;
    r := PublishResult(results, errors, Keys(results), Keys(errors));
  }

  // ---------------------------------------------------------------- platform status

  /** One row of the platform status table. */
  datatype PlatformInfo = PlatformInfo(
    name: string, configured: bool, requiredEnv: seq<string>, optionalEnv: seq<string>, description: string)

  /** `get_platform_status`: each known platform, in table order, with its configured predicate. */
  function PlatformStatus(env: Env): (status: seq<(string, PlatformInfo)>)
    ensures Keys(status) == PlatformNames
    ensures status[0].1.configured <==> EnvSet(env, "CONFLUENCE_BASE") && EnvSet(env, "CONFLUENCE_API_TOKEN")
    ensures status[1].1.configured <==> EnvSet(env, "GITHUB_TOKEN")
    ensures status[2].1.configured <==> EnvSet(env, "SLACK_WEBHOOK_URL")
    ensures status[3].1.configured <==> EnvSet(env, "SMTP_HOST") && EnvSet(env, "SMTP_USER") && EnvSet(env, "EMAIL_RECIPIENTS")
    ensures status[4].1.configured <==> EnvSet(env, "CUSTOM_WEBHOOK_URL")
  {
    [("confluence", PlatformInfo("Confluence", EnvSet(env, "CONFLUENCE_BASE") && EnvSet(env, "CONFLUENCE_API_TOKEN"),
        ["CONFLUENCE_BASE", "CONFLUENCE_USER", "CONFLUENCE_API_TOKEN"], [], "Publish to Confluence wiki pages")),
     ("github", PlatformInfo("GitHub Releases", EnvSet(env, "GITHUB_TOKEN"), ["GITHUB_TOKEN"], [], "Create GitHub releases")),
     ("slack", PlatformInfo("Slack", EnvSet(env, "SLACK_WEBHOOK_URL"), ["SLACK_WEBHOOK_URL"], [], "Post notifications to Slack")),
     ("email", PlatformInfo("Email", EnvSet(env, "SMTP_HOST") && EnvSet(env, "SMTP_USER") && EnvSet(env, "EMAIL_RECIPIENTS"),
        ["SMTP_HOST", "SMTP_USER", "SMTP_PASSWORD", "EMAIL_RECIPIENTS"], [], "Send release notes via email")),
     ("webhook", PlatformInfo("Custom Webhook", EnvSet(env, "CUSTOM_WEBHOOK_URL"), ["CUSTOM_WEBHOOK_URL"],
        ["WEBHOOK_AUTH_TOKEN"], "Post to custom webhook endpoint"))]
  }

  /** The names whose status row says configured, in table order. */
  function ConfiguredNames(status: seq<(string, PlatformInfo)>): (names: seq<string>)
    ensures forall q :: q in names <==> exists i :: 0 <= i < |status| && status[i].0 == q && status[i].1.configured
    decreases |status|
  {
    if status == [] then []
    else
      var rest := ConfiguredNames(status[1..]);
      assert forall i :: 0 < i < |status| ==> status[1..][i - 1] == status[i];
      (if status[0].1.configured then [status[0].0] else []) + rest
  }

  /**
   * `auto_publish`: without a list the configured platforms are used; an empty selection
   * returns the "general" error without reading the file or raising; otherwise the file
   * is read (its failure propagates) and published.
   */
  function AutoPublish(version: string, platforms: Option<seq<string>>, metadata: Metadata, file: Result<string, Error>, w: PublishWorld)
    : (r: Result<PublishResult, Error>)
    ensures var chosen := if platforms.Some? then platforms.value else ConfiguredNames(PlatformStatus(w.env));
      && (chosen == [] ==> r == Ok(PublishResult([], [("general", Plain("No platforms configured for publishing"))], [], [])))
      && (chosen != [] && file.Err? ==> r == Err(file.error))
      && (chosen != [] && file.Ok? ==> r == Ok(PublishAll(chosen, version, file.value, metadata, w)))
  {
    var chosen := if platforms.Some? then platforms.value else ConfiguredNames(PlatformStatus(w.env));
    if chosen == [] then Ok(PublishResult([], [("general", Plain("No platforms configured for publishing"))], [], []))
    else if file.Err? then Err(file.error)
    else Ok(PublishAll(chosen, version, file.value, metadata, w))
  }

  /** Without a list, exactly the platforms whose configured predicate holds are targeted. */
  lemma AutoPublishTargets(env: Env, q: string)
    ensures q in ConfiguredNames(PlatformStatus(env)) <==>
      exists i :: 0 <= i < 5 && PlatformNames[i] == q && PlatformStatus(env)[i].1.configured
  {
    var st := PlatformStatus(env);
    assert forall i :: 0 <= i < 5 ==> st[i].0 == PlatformNames[i];
  }
}
