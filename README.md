# release-notes-generator, modelled in Dafny

release-notes-generator collects a repository's recent changes and turns them into
release notes. It has three stages, with endpoints around them:

- **Ingestion.** The service takes commits from local git or the forge (GitHub). It takes
  issues from the forge, a Jira tracker or a JSON file. It takes previous releases from
  the forge, from saved release files or from a CHANGELOG.
- **Generation.** A language model, or a fixed template, writes the notes.
- **Publishing.** The notes go to a Confluence wiki page, a forge release, a Slack
  webhook, e-mail or a custom webhook.
- **Endpoints.** A small HTTP layer validates requests, reports configuration, suggests
  the next version and lists saved notes.

This project models the deterministic core of those stages: the decisions, the filters, the
parsers and the text rewriting. It proves what the code promises about them.

Every call to the outside world is an input of the model rather than an action. This
covers HTTP requests, git, SMTP, file reads and writes, directory listings, the
environment and the clock.
- A request's answer is an `Outcomes.Result`: `Ok` with the decoded payload, or `Err` with
  the exception it raises (`Errors.Error`).
- The environment is a map from names to strings (`Environment.Env`).
- A directory is a sequence of files, each with its name, content and modification time.
- A forge listing that follows the `next` links is a sequence of page answers, and the
  `next` link is an option on each page (`Paging`).
- Decoded JSON is the `JsonValue.Json` datatype. Raw dicts stay as maps.

Loops in the source are `method`s with `while` loops. Each is proved equal to a function
that specifies it, and the lemmas are stated about those functions. Code that builds
values in expressions is modelled by functions.

The modules follow the source files:

| module | models |
|---|---|
| `DataIngestion`, `IngestionLoaders` | `src/data_ingestion.py` |
| `ExtractCommits` | `scripts/extract_commits.py` |
| `FetchIssues` | `scripts/fetch_issues.py` |
| `FetchReleases` | `scripts/fetch_releases.py` |
| `Bulletproof` | `src/bulletproof_github.py` |
| `Publishing` | `src/publishing_service.py` |
| `ConfluenceStorage` | the markdown converter and page lookup shared by `src/publish_to_confluence.py` and `src/confluence_fix.py` |
| `ConfluencePublish` | `src/publish_to_confluence.py` |
| `ConfluenceFix` | `src/confluence_fix.py` |
| `LlmService` | `src/llm_service.py` |
| `FallbackLlm` | `src/fallback_llm.py` |
| `EnhancedPipeline` | `src/enhanced_generate_notes.py` |
| `ApiEndpoints` | `src/api_endpoints.py` |
| `EnhancedEndpoints` | `test_confluence_debug.py`, whose name is historical: it holds the enhanced UI endpoints |
| `Server` | `src/server.py` |
| `Text`, `JsonValue`, `Outcomes`, `Dicts`, `Errors`, `Environment`, `Paging`, `Records` | Python's string operations, decoded JSON, outcomes and dicts, the environment, the forge's paging loop, and the shared commit and release records |

The model follows the code wherever the code and its documentation differ. In
particular it keeps these quirks of the code:
- An explicit `github` commit source still falls back to local git when the forge fails.
- A CHANGELOG header equal to the current version opens no record. Its lines go to the
  previous record, which can then be listed twice.
- Because of operator precedence, `*` lines count as highlights even outside the
  highlights section.
- The e-mail recipient check can never fire.
- The fallback wiki publisher never updates a page.
- A non-numeric milestone never matches.
- Asking for zero previous releases can return one.
- Bold and italic are rewritten before the list pass, so `* a * b` is no longer a bullet.

Two glyphs in `src/publishing_service.py` are stored in the file double-encoded as
UTF-8: the highlight bullet and the chat message's rocket. The model's string literals
are those characters as stored, not the intended glyphs.

## Model

| member | source | states |
|---|---|---|
| Bulletproof.BulletproofGitHub.constructor | src/bulletproof_github.py:12-20 | the token is GITHUB_TOKEN (empty counts as unset); the headers always carry the v3 Accept value and carry `Authorization: token <t>` exactly when a token is set |
| Bulletproof.BulletproofGitHub.GetCommits | src/bulletproof_github.py:23-68 | the client's header invariant holds before and after; one request for `per_page` commits; a 200 gives one normalised record per element, in order; 401 gives the unauthorised error, any other status the API error, and a failed request propagates |
| Bulletproof.BulletproofGitHub.GetIssues | src/bulletproof_github.py:70-95 | the client's header invariant holds before and after; one request with state, per_page, sort=updated and direction=desc; the decoded body on a 200 whose body has a length, and the empty list in every other case, so it never raises |
| Paging.FollowGathers | scripts/extract_commits.py:104-131 | when the first n answers are answered, non-failing and processed, each but the last links to a next page and the n-th has none (or the answers end), the run sends n requests and returns the items gathered before followed by every page's contribution, in page order |
| Paging.FollowFails | scripts/extract_commits.py:104-131 | when the first n answers are got past and link on and the next one fails (a raising request, a failing status or a raising page), the run sends n + 1 requests and raises that answer's error: the request's, then the status's, then the page's |
| Paging.FollowKeepsEarlier | scripts/extract_commits.py:104-133 | a run sends at most one request per answer after the earlier ones, and on success the items gathered before lead the result |
| Paging.FollowRequests | scripts/extract_commits.py:104-131 | the first request goes to the start URL with the query; every later one carries no parameters and goes to the previous answer's `next` link |
| Paging.FollowStopsAtCap | scripts/fetch_releases.py:43-68 | with a limit, paging stops once enough items are gathered: when every page contributes, no more requests are sent than items were still wanted |
| Records.NormaliseCommit | scripts/extract_commits.py:113-124 | the forge commit record: a seven-character hash and the full sha, the author's name and date, the committer date, the message's first line as subject and the stripped remaining lines as body, the URL, and the login or "" when the author is null |
| Records.NormaliseCommits | scripts/extract_commits.py:112-124 | one record per API element |
| Records.NormaliseCommitsAt | scripts/extract_commits.py:112-124 | the i-th record is the normalisation of the i-th element, so order is kept |
| Records.SubjectBodySplit | scripts/extract_commits.py:118-119 | the subject holds no newline; a message without one is all subject with an empty body; otherwise the message is the subject, a newline and a text whose strip is the body |
| Records.NormaliseRelease | scripts/fetch_releases.py:49-59 | the release record keeps tag, name, body, dates and URL, gives "" for a null author and False for an absent prerelease or draft flag |
| Records.NormaliseReleases | scripts/fetch_releases.py:48-59 | one release record per element, each the normalisation of the element at the same place |
| ExtractCommits.GitLogCommand | scripts/extract_commits.py:23-29 | `git -C <path> log` with the six-field format, then `--since` and `--until` exactly for the bounds that are given |
| ExtractCommits.ParseLogLine | scripts/extract_commits.py:33-44 | a line yields a commit exactly when it is not blank and holds at least five `|`; the six fields joined back with `|` give the line, and only the last may contain `|` |
| ExtractCommits.LogFields | scripts/extract_commits.py:35-36 | splitting at most five times gives six fields exactly when there are at least five separators, never more than six, joins back to the line, and all but the last are free of `|` |
| ExtractCommits.ExtractCommitsLocal | scripts/extract_commits.py:21-45 | the git outcome's error propagates; otherwise the parsed commits of the output's lines, in line order |
| ExtractCommits.LocalCommitsFromLines | scripts/extract_commits.py:32-44 | there are no more commits than lines and every commit is the parse of one output line |
| ExtractCommits.NormaliseEach | scripts/extract_commits.py:112-124 | the normalising loop produces exactly the normalised list |
| ExtractCommits.CommitParams | scripts/extract_commits.py:90-96 | per_page 100, and since, until and sha present exactly when given, with their values, and nothing else |
| ExtractCommits.ExtractCommitsGithub | scripts/extract_commits.py:47-133 | no token raises before any request; otherwise the requests sent and the outcome are those of the page-following run from the commits URL with CommitParams, normalising every commit of every page in order |
| ExtractCommits.ExtractCommitsBetweenTags | scripts/extract_commits.py:136-185 | with no token given and GITHUB_TOKEN unset, the debug print's `token[:10]` raises TypeError before any request; otherwise the compare listing is used only when both tags resolve and it answers 200; a compare request that raises propagates; every other case falls back to the unbounded forge extraction with the environment's token preferred |
| FetchIssues.FirstMatch | scripts/fetch_issues.py:70-73 | a selected milestone number belongs to a milestone that matches the test |
| FetchIssues.FirstMatchIsEarliest | scripts/fetch_issues.py:70-73 | the number selected is that of the earliest matching milestone |
| FetchIssues.NonDigitMilestoneNeverMatches | scripts/fetch_issues.py:71 | as the conditional expression parses, a milestone name that is not all digits never selects a milestone, even one whose title equals it |
| FetchIssues.SelectMilestone | scripts/fetch_issues.py:70-73 | the loop with its `break` selects exactly the first match |
| FetchIssues.FetchMilestones | scripts/fetch_issues.py:113-117 | every call raises NameError before any request, since the undefined WORKING_TOKEN is read first |
| FetchIssues.IssueParams | scripts/fetch_issues.py:60-79 | state, per_page 100, sort=updated and direction=desc always; the milestone number when one was selected; the labels joined by commas when the list is non-empty; the assignee when given; nothing else |
| FetchIssues.ClosedAt | scripts/fetch_issues.py:94-96 | a closing time is reported only for an object with a truthy string `closed_at` that parses |
| FetchIssues.Passes | scripts/fetch_issues.py:94-97 | an issue is kept exactly when it was closed at or after `since` with both times naive or both aware; a closing time that is aware where `since` is naive, or the reverse, raises TypeError as Python's datetime comparison does |
| FetchIssues.MixedOffsetsRaise | scripts/fetch_issues.py:91-97 | a page holding an offset-aware closing time, filtered against a `since` without an offset, raises |
| FetchIssues.KeepClosedSinceSpec | scripts/fetch_issues.py:90-99 | the since filter succeeds exactly when no issue raises (no malformed issue, no unparsable time, no naive/aware mix), and then keeps exactly the issues closed at or after `since` |
| FetchIssues.FilterClosedSince | scripts/fetch_issues.py:92-98 | the filter loop gives exactly the filtered page or the first error, the naive/aware TypeError included |
| FetchIssues.KeepStopsAtError | scripts/fetch_issues.py:93-98 | once an issue raises, the rest of the page cannot change the outcome |
| FetchIssues.ProcessPage | scripts/fetch_issues.py:90-101 | one page contributes every issue without `since`; with it, an unparsable `since` raises ValueError and otherwise the page filter's result (including its TypeError on a naive/aware mix) |
| FetchIssues.GatherUnfiltered | scripts/fetch_issues.py:100-101 | without `since` every answered, non-failing page contributes all of its items |
| FetchIssues.GatherClosedSince | scripts/fetch_issues.py:90-99 | with a parsable `since` every contributed issue was closed at or after it |
| FetchIssues.IssuesWithoutSince | scripts/fetch_issues.py:84-108 | without `since` and a milestone, a listing that ends normally after n pages yields exactly those pages' items, in page order |
| FetchIssues.IssuesSinceKept | scripts/fetch_issues.py:84-108 | with a parsable `since`, a listing that ends normally yields only issues closed at or after `since` |
| FetchIssues.FetchGithubIssues | scripts/fetch_issues.py:19-110 | no token raises; a milestone name raises through the milestone lookup; otherwise the requests and the outcome are those of the page-following run from the issues URL with IssueParams, each page passing through the filter (which raises on a naive/aware mix) |
| FetchIssues.FollowIssues | scripts/fetch_issues.py:84-110 | the `while url:` loop performs exactly the page-following run |
| FetchReleases.GithubReleasesBounds | scripts/fetch_releases.py:39-70 | the listing returns at most `limit` records, and sends at most `limit` requests when every page holds a record |
| FetchReleases.NormaliseEachRelease | scripts/fetch_releases.py:48-59 | the append loop of one page gives exactly the page's normalised records, in order |
| FetchReleases.FetchGithubReleases | scripts/fetch_releases.py:7-70 | no token raises; otherwise the requests and the outcome are the page-following run with `per_page` set to the limit, stopped once `limit` records are gathered and cut to `releases[:limit]` |
| FetchReleases.FollowReleases | scripts/fetch_releases.py:43-68 | the `while url:` loop, with its `len(releases) >= limit` break after each page, performs exactly the capped page-following run |
| FetchReleases.FetchReleaseByTag | scripts/fetch_releases.py:72-123 | no token raises; a 404 answer yields None; any other failing status raises; a failed request propagates; with a token, an answered request with a non-failing status yields exactly the normalisation of its body |
| FetchReleases.Attempt | scripts/fetch_releases.py:160-171 | one file's attempt yields text only for a 200 answer whose non-empty string `content` decodes, and yields that decoding; conversely every such answer yields its decoding; every failure inside it is swallowed |
| FetchReleases.FirstChangelogSpec | scripts/fetch_releases.py:158-173 | the lookup returns the text of the earliest file name whose attempt yields one, and None exactly when no attempt does |
| FetchReleases.FetchChangelogFromRepo | scripts/fetch_releases.py:125-173 | no token raises; otherwise the five names CHANGELOG.md, CHANGELOG, Changelog.md, changelog.md, HISTORY.md are tried in that order and the first text is returned |
| FetchReleases.PreviousSpec | scripts/fetch_releases.py:180-185 | the releases selected before stay in front, every newly selected release comes from the listing, has another tag and is not a draft, and at most `count` are selected (at most one when `count` is not positive); the order is stated by PreviousTakesKept |
| FetchReleases.KeptOf | scripts/fetch_releases.py:181-183 | the kept releases are exactly those of the listing with another tag that are not drafts |
| FetchReleases.PreviousTakesKept | scripts/fetch_releases.py:180-185 | with a positive `count` the selection is exactly the first `count` kept releases in listing order, or all of them when fewer are kept |
| FetchReleases.PreviousCountBelowOne | scripts/fetch_releases.py:181-185 | with `count` below 1 the selection is the first release when it is kept and empty otherwise, because the length test follows the append |
| FetchReleases.SelectPrevious | scripts/fetch_releases.py:180-185 | the selection loop returns exactly the specified selection |
| FetchReleases.GetPreviousReleaseNotes | scripts/fetch_releases.py:175-187 | a failing listing of the first 50 releases propagates; otherwise the result is the selection over that listing |
| IngestionLoaders.JqlText | src/data_ingestion.py:140-147 | the query is the project clause, then " AND " and the status clause exactly when a status is given, then " AND " and the update bound exactly when a date is given |
| IngestionLoaders.LabelList | src/data_ingestion.py:178 | a label list is copied as it is, a string gives its characters and a dict its keys in document order; it raises exactly for null, a number or a boolean, which are not iterable |
| IngestionLoaders.JiraIssueShape | src/data_ingestion.py:170-185 | a normalised tracker record is a dict whose id and number are the key, whose closing time equals its update time, whose link is the key's browse page under the base URL, whose source is "jira" and whose labels are a list |
| IngestionLoaders.PlainJiraItemNormalises | src/data_ingestion.py:170-185 | a record with dict fields, a dict status, list labels and no assignee always normalises |
| IngestionLoaders.NormaliseJiraItems | src/data_ingestion.py:169-187 | the record loop gives every record normalised in order, or the error of the first record that raises |
| IngestionLoaders.FetchJiraIssues | src/data_ingestion.py:126-191 | a request is sent exactly when base URL, user name and API token are all set, and it carries the JQL of project, status and date; the result is [] whenever anything raises and otherwise the normalised records; it never raises |
| IngestionLoaders.LoadJsonIssues | src/data_ingestion.py:193-212 | no path gives []; a top-level list is returned as it is; a dict with `issues` gives that value; anything else, and any read or decode failure, gives [] |
| IngestionLoaders.ForgeRecordsAreFirstEligible | src/data_ingestion.py:270-282 | the filter loop returns exactly the first `count` releases that have another tag than the current version and are not drafts, in listing order |
| IngestionLoaders.ForgeBound | src/data_ingestion.py:245-288 | the forge loader never returns more than `count` releases |
| IngestionLoaders.FilterForgeReleases | src/data_ingestion.py:270-282 | the loop gives exactly the specified filtered records |
| IngestionLoaders.FetchForgeReleases | src/data_ingestion.py:245-288 | a request with `per_page` twice the count is sent exactly when a token and a repository are present; [] when either is missing or the request fails; otherwise the filtered records; it never raises |
| IngestionLoaders.InsertByMtime | src/data_ingestion.py:296-300 | inserting a file into a newest-first list keeps it newest first and adds exactly that file |
| IngestionLoaders.SortNewestFirst | src/data_ingestion.py:296-300 | the release files are ordered newest first and form a permutation of the listing |
| IngestionLoaders.LocalRecords | src/data_ingestion.py:302-331 | records already held stay in front, and no more than `count` are held unless more already were |
| IngestionLoaders.LocalRecordsFromFiles | src/data_ingestion.py:303-325 | every record added comes from a readable release file whose version is not the current one, so none carries the current version |
| IngestionLoaders.LoadLocalReleases | src/data_ingestion.py:290-331 | [] without an examples directory; otherwise the selection loop over the files sorted newest first |
| IngestionLoaders.HeaderVersion | src/data_ingestion.py:352 | the version taken from between the brackets of a header holds neither `[` nor `]` |
| IngestionLoaders.ParseStep | src/data_ingestion.py:347-361 | one line keeps every held position and the open record inside the record list, and never drops a record |
| IngestionLoaders.ParseLines | src/data_ingestion.py:346-361 | after any lines, the held positions and the open record refer to records that exist |
| IngestionLoaders.ParseLinesEntries | src/data_ingestion.py:348-359 | every record the parser opens has a version other than the current one, free of brackets |
| IngestionLoaders.ParseChangelogSpec | src/data_ingestion.py:343-367 | the parser returns at most `count` records, each with a version other than the current one and free of brackets |
| IngestionLoaders.PreambleIgnored | src/data_ingestion.py:360-361 | lines before the first header leave the parser in its initial state |
| IngestionLoaders.NoHeaderNoRecords | src/data_ingestion.py:346-367 | a text with no header line gives no records |
| IngestionLoaders.CurrentVersionHeaderKeepsRecordOpen | src/data_ingestion.py:348-365 | a header of the current version holds the open record but leaves it open; the lines under it keep growing its body; at the end the same record object is returned twice, both copies with those lines |
| IngestionLoaders.ParseLine | src/data_ingestion.py:347-361 | the body of the line loop performs exactly one parser step |
| IngestionLoaders.ParseChangelogFile | src/data_ingestion.py:333-371 | [] when CHANGELOG.md is missing or cannot be read; otherwise exactly the parse of its text |
| DataIngestion.NewService | src/data_ingestion.py:23-54 | the service keeps the configured repository and takes its tracker base URL and project key from the environment |
| DataIngestion.RepoOf | src/data_ingestion.py:67 | a given repository wins; otherwise the configured one is used |
| DataIngestion.CommitSource | src/data_ingestion.py:71-73 | "auto" becomes "github" exactly when a token is set and "local" exactly when none is; any other source is kept |
| DataIngestion.IngestCommits | src/data_ingestion.py:56-89 | the forge source sends one commit request for the repository with per_page 100 and returns every answered commit normalised in order; any failure falls back to the local git history; "local" uses the local history; any other source raises |
| DataIngestion.IngestIssues | src/data_ingestion.py:91-124 | "github" never raises and returns the answered list or []; "jira" returns the tracker outcome; "json" returns the file loader's outcome; any other source raises |
| DataIngestion.IngestPreviousReleases | src/data_ingestion.py:214-243 | "auto" with a token and "github" return the forge loader's records, whose empty answer is final; "local" and "auto" without a token return the local records; "changelog" returns the parsed entries; any other source raises; at most `count` are returned |
| DataIngestion.IngestPreviousIfAsked | src/data_ingestion.py:425-433 | nothing when previous releases are not asked for; otherwise at most the given count, three by default |
| DataIngestion.IngestAllData | src/data_ingestion.py:394-448 | an unknown commit source raises, and so does an unknown issue source after local commits were read; the dataset's commits are the forge's normalised records on a 200 answer and the local history otherwise; its issues are the forge body (or [] when it fails), the tracker search's records or the JSON file's issues, by source; its metadata names the version, the repository, the three sources ("none" for releases when not asked) and the ingestion time, and it holds at most the asked number of previous releases |
| Publishing.RepoFor | src/publishing_service.py:103 | a non-empty metadata dict supplies `repo` (null when it has none); otherwise the configured repository, or the default when none is configured |
| Publishing.WikiPath | src/publishing_service.py:76-77 | a non-empty path comes out starting with /wiki and ending with the original path; one already under /wiki is kept as it is |
| Publishing.WikiPathIdempotent | src/publishing_service.py:76-77 | applying the /wiki fix twice equals applying it once |
| Publishing.PageUrl | src/publishing_service.py:79 | the page URL is empty exactly when the path is, and is otherwise the base followed by the fixed path |
| Publishing.PublishWiki | src/publishing_service.py:60-92 | every failure is wrapped as a Confluence publishing failure; a publisher error is wrapped as it is; a falsy result gives "No result returned"; a truthy dict result whose `_links.webui` is a string gives the page at the base plus the /wiki-prefixed path, with the result's `id` and `title`; a published page's URL is empty or lies under the base's /wiki |
| Publishing.Wiki | src/publishing_service.py:69-88 | a truthy dict result whose `_links.webui` is a string gives the page at the base plus the /wiki-prefixed path, with the result's `id` and `title` (empty strings when absent); a page record's URL is empty or starts with the base followed by /wiki |
| Publishing.IsPrereleaseIff | src/publishing_service.py:122 | a version is a prerelease exactly when it holds a dash, or alpha or beta in any case |
| Publishing.ReleasePayloadFor | src/publishing_service.py:117-123 | the payload tags the version, names it "Release <version>", carries the notes, is never a draft, and is a prerelease exactly for a prerelease version |
| Publishing.ReleaseId | src/publishing_service.py:127 | the id is found exactly when the answer is a dict with `id`, and it is that value |
| Publishing.ReleaseWriteFor | src/publishing_service.py:102-133 | a missing token or repository raises before anything is sent; a failed lookup propagates; a 200 lookup updates that release by its id (and raises without one); any other status creates a release |
| Publishing.ReleaseLookupUrl | src/publishing_service.py:105-115 | the tag lookup is sent exactly when the token and repository checks pass |
| Publishing.PublishForge | src/publishing_service.py:94-143 | a failed write preparation propagates; after a prepared write, a failed request propagates, a failing status raises the HTTP error, a non-dict body raises AttributeError, and a dict body gives the release with its `html_url` and `id` (empty when absent); a published release means all of these passed |
| Publishing.Classify | src/publishing_service.py:299-306 | a stripped line is a highlights heading exactly when it starts with `#` and mentions "highlight" in any case; another heading exactly for any other `#` line; a dash or star bullet exactly by its first character, with the stripped text after the marker |
| Publishing.ClassifyAll | src/publishing_service.py:294-299 | every line is classified, in order |
| Publishing.BulletLines | src/publishing_service.py:319 | each item becomes one line, the glyph followed by the item |
| Publishing.SectionScanBound | src/publishing_service.py:298-308 | the first pass keeps what it held in front and never holds more than the bound |
| Publishing.BulletScanTakesFirst | src/publishing_service.py:310-317 | the fallback pass adds the first bullet texts of the document, as many as are still wanted |
| Publishing.SectionScanFromBullets | src/publishing_service.py:298-308 | every item the first pass adds is the text of a bullet line of the document |
| Publishing.ItemsOfSpec | src/publishing_service.py:292-319 | at most the bound of highlights, each the text of a bullet line; the first pass's items when it found any, otherwise the document's first bullet texts |
| Publishing.StarCountsOutsideSection | src/publishing_service.py:305 | the condition groups as `(in_highlights and -) or *`: outside the section a `*` line is collected and a `-` line is not |
| Publishing.ExtractHighlights | src/publishing_service.py:292-319 | the section loop, then the fallback loop when it found nothing, cut to the bound and joined |
| Publishing.SectionLoop | src/publishing_service.py:298-308 | the first loop, with its early exits, gives exactly the first pass |
| Publishing.FallbackLoop | src/publishing_service.py:312-317 | the second loop gives exactly the fallback pass |
| Publishing.SlackMessageFor | src/publishing_service.py:158-195 | the message holds the three highlights under "*Highlights:*" and a button linking the release's tag page of the repository ("Unknown" when none is configured) |
| Publishing.PublishSlack | src/publishing_service.py:145-204 | an unset webhook URL raises; the post succeeds exactly when the URL is set and the post is answered with a non-failing status |
| Publishing.Recipients | src/publishing_service.py:222 | the recipient list always holds at least one entry |
| Publishing.RecipientCheckNeverFires | src/publishing_service.py:222-225 | the `not recipients` test never fires; without EMAIL_RECIPIENTS the list is one empty address |
| Publishing.MarkdownToHtml | src/publishing_service.py:321-331 | the conversion raises exactly when the markdown package is installed, since the import rebinds the parameter's name |
| Publishing.PublishEmail | src/publishing_service.py:206-254 | an SMTP_PORT that is not an integer raises first; missing host, user or password raises "Email configuration incomplete"; with complete settings an installed markdown package raises AttributeError, otherwise the message built by EmailFor is handed to the server, whose error is the outcome, and the mail is sent to the recipient count exactly when the server raises nothing |
| Publishing.EmailFor | src/publishing_service.py:228-241 | the subject is "Release Notes - <version>", the text part is the notes, the HTML part is the converted notes and the To line lists the recipients joined by ", " |
| Publishing.WebhookRequestFor | src/publishing_service.py:264-282 | a request exists exactly when CUSTOM_WEBHOOK_URL is set; it posts the version, notes, metadata, time and repository as JSON, with a Bearer header exactly when WEBHOOK_AUTH_TOKEN is set |
| Publishing.PublishWebhook | src/publishing_service.py:256-290 | an unset URL raises; with the URL set, a failed post propagates, a failing status raises the HTTP error, and a non-failing answer is reported with the URL and its status |
| Publishing.Attempt | src/publishing_service.py:43-51 | a name outside the five platforms records "Unsupported platform: <name>" |
| Publishing.SucceedingWithin | src/publishing_service.py:42-51 | only requested names are recorded |
| Publishing.PublishPartition | src/publishing_service.py:39-58 | for a request without repeated names, `published_to` is exactly the names whose attempt succeeds and `failed_to` exactly the others, each in request order |
| Publishing.PublishExactlyOnce | src/publishing_service.py:42-57 | every requested name lands in exactly one of the two lists, and in `published_to` exactly when its attempt succeeds |
| Publishing.SucceedingMembers | src/publishing_service.py:42-51 | a requested name is among the successes exactly when its attempt succeeds, and among the failures otherwise |
| Publishing.PublishReleaseNotes | src/publishing_service.py:29-58 | one attempt per requested name, in order; a failure is recorded and the loop goes on |
| Publishing.PlatformStatus | src/publishing_service.py:333-378 | the five platforms in table order, each configured exactly when its environment variables are set (Confluence: base and API token; email: host, user and recipients) |
| Publishing.ConfiguredNames | src/publishing_service.py:394 | a name is selected exactly when a row with that name says configured |
| Publishing.AutoPublish | src/publishing_service.py:382-408 | without a list the configured platforms are used; an empty selection returns the "general" error without reading the file; a failing file read propagates; otherwise the notes are published to the selection |
| Publishing.AutoPublishTargets | src/publishing_service.py:390-394 | without a list, exactly the platforms whose configured predicate holds are targeted |
| ConfluenceStorage.HeadingOne | src/publish_to_confluence.py:43 | a line starting with `# ` becomes a level-one heading of the rest of the line |
| ConfluenceStorage.HeadingTwo | src/publish_to_confluence.py:42 | a line starting with `## ` becomes a level-two heading, untouched by the later `# ` rewrite |
| ConfluenceStorage.HeadingThree | src/publish_to_confluence.py:41 | a line starting with `### ` becomes a level-three heading, untouched by the later rewrites |
| ConfluenceStorage.NoHeading | src/publish_to_confluence.py:41-43 | a line that does not start with `#` is left as it is by the heading rewrites |
| ConfluenceStorage.PairAt | src/publish_to_confluence.py:46 | the lazy bold span ends at the first `**` after its opener: the index found is a `**` and none occurs before it |
| ConfluenceStorage.Bold | src/publish_to_confluence.py:46 | a line without `*` is unchanged, and the rewrite never introduces a line break |
| ConfluenceStorage.Italic | src/publish_to_confluence.py:47 | a line without `*` is unchanged, and the rewrite never introduces a line break |
| ConfluenceStorage.ItalicLeavesOneStar | src/publish_to_confluence.py:47 | after the italic rewrite a line holds at most one `*`, every other one having been paired into a span |
| ConfluenceStorage.BoldBeforeItalic | src/publish_to_confluence.py:46-47 | since bold runs first, a `**` pair around star-free text becomes a strong element and no emphasis |
| ConfluenceStorage.Code | src/publish_to_confluence.py:74 | a document without back quotes is unchanged by the code rewrite |
| ConfluenceStorage.CodeWraps | src/publish_to_confluence.py:74 | a non-empty back-quoted span in otherwise back-quote-free text becomes one code element |
| ConfluenceStorage.CodeSpan | src/publish_to_confluence.py:74 | a document opening with a non-empty back-quoted span turns that span into a code element |
| ConfluenceStorage.ClassifyMd | src/publish_to_confluence.py:54-67 | a line is a list item exactly when its stripped form starts with `- ` or `* `, its content being what follows the marker; other lines are paragraphs when they have text and blank otherwise |
| ConfluenceStorage.ListLength | src/publish_to_confluence.py:50-69 | the list pass writes one line per input line plus an opening and a closing tag per run of items |
| ConfluenceStorage.RenderIsNoTag | src/publish_to_confluence.py:59-67 | a rendered line is never a list tag, and is a list element exactly for an item |
| ConfluenceStorage.ListNested | src/publish_to_confluence.py:50-69 | the list pass never nests lists, closes the last one, and puts exactly the items inside lists |
| ConfluenceStorage.ListContent | src/publish_to_confluence.py:50-69 | apart from the list tags, the output is each input line rendered, in order |
| ConfluenceStorage.EmitLine | src/publish_to_confluence.py:54-67 | one line appends the tag its kind calls for, then its rendering, and leaves a list open exactly after an item |
| ConfluenceStorage.ListPass | src/publish_to_confluence.py:50-69 | the loop and its final close write exactly the specified list pass |
| ConfluenceStorage.StorageLineCount | src/publish_to_confluence.py:38-71 | the converted document has one line per input line plus two per run of items |
| ConfluenceStorage.StoragePage | src/publish_to_confluence.py:76-86 | the payload is a page in storage representation with the given title, space and text, and no version, id or parent |
| ConfluenceStorage.MdToStorageFormat | src/publish_to_confluence.py:32-86 | the converter gives exactly the storage page of the document's converted text |
| ConfluenceStorage.StarBulletWithSecondStar | src/publish_to_confluence.py:47-54 | a `* ` bullet with a second `*` on its line becomes emphasis and is no longer an item, since emphasis is rewritten before the list pass |
| ConfluenceStorage.ItalicPair | src/publish_to_confluence.py:47 | two stars around star-free text, followed by star-free text, make one emphasis span |
| ConfluenceStorage.TagLineIsNoItem | src/publish_to_confluence.py:54 | a line starting with `<` is never a list item |
| ConfluenceStorage.PageTitle | src/publish_to_confluence.py:124 | the page title is "Release Notes - " followed by the version |
| ConfluenceStorage.PageLookupRequest | src/publish_to_confluence.py:95-100 | the search goes to the base's /wiki content endpoint with exactly the space key, the title and `expand` |
| ConfluenceStorage.ExistingPageId | src/publish_to_confluence.py:102-111 | a failed request or a status other than 200 gives None; a found id is the `id` of the first search result of a 200 answer, and a 200 answer whose non-empty `results` list starts with a dict holding `id` gives that `id` |
| ConfluencePublish.FindExistingPage | src/publish_to_confluence.py:88-111 | without all three credentials, or on a status other than 200, no page is found; with them, a 200 answer whose non-empty `results` list starts with a dict holding `id` gives that `id` |
| ConfluencePublish.WithParent | src/publish_to_confluence.py:142-143 | the parent page is attached exactly when one is configured, and nothing else changes |
| ConfluencePublish.CurrentNumber | src/publish_to_confluence.py:134-135 | a failed read propagates; a number is read only from a dict body; a body without `version`, or a `version` dict without `number`, gives revision 1; an integer `number` is read as it is; a `version` that is not a dict raises AttributeError |
| ConfluencePublish.FirstCreated | src/publish_to_confluence.py:165-172 | the index found is of an address answering 200 or 201, and no earlier address did |
| ConfluencePublish.TryCreate | src/publish_to_confluence.py:164-180 | the creation loop fails only with "All API endpoints failed" |
| ConfluencePublish.TryCreateFirst | src/publish_to_confluence.py:164-184 | creation succeeds exactly when some address answers 200 or 201, and then with the first such answer |
| ConfluencePublish.Attempts | src/publish_to_confluence.py:165-177 | the loop never posts to more addresses than it has |
| ConfluencePublish.Posts | src/publish_to_confluence.py:167 | one creation post of the same payload per address tried, in order |
| ConfluencePublish.CreatePage | src/publish_to_confluence.py:164-181 | the loop with its `success` flag and `break` gives exactly the specified outcome and posts to exactly the addresses it tries |
| ConfluencePublish.Announced | src/publish_to_confluence.py:148 | the success message raises AttributeError exactly when the answer is not a dict or its `_links` is present and not a dict |
| ConfluencePublish.UpdatePage | src/publish_to_confluence.py:129-149 | the page is read once; a failed revision read raises before any write; otherwise one PUT to the page's address with the next revision number and the page id; the update returns the answer exactly when the revision read worked, the update answered with a non-failing status and its success message can be printed |
| ConfluencePublish.NewPage | src/publish_to_confluence.py:150-184 | no read is sent; the writes are creation posts of the page to the addresses tried, in order; the outcome is stated by CreationTriesInOrder |
| ConfluencePublish.CreateNewPage | src/publish_to_confluence.py:150-184 | the create branch converts the notes, adds the parent, runs the creation loop and prints the success message exactly as specified |
| ConfluencePublish.Publish | src/publish_to_confluence.py:113-184 | `publish` sends exactly the requests and returns exactly the outcome of its specification, the success message's AttributeError included |
| ConfluencePublish.NoCredentialsNoRequests | src/publish_to_confluence.py:115-119 | without the three credentials nothing is sent and the result is None |
| ConfluencePublish.WritesCarryTitle | src/publish_to_confluence.py:124-156 | every page written carries the title "Release Notes - <version>", the space and the storage body, with the parent when configured |
| ConfluencePublish.NoUpdateWithoutAsking | src/publish_to_confluence.py:127 | without update_existing there is no title search and no update, only creation posts |
| ConfluencePublish.UpdateBumpsRevision | src/publish_to_confluence.py:129-149 | with update_existing and a page found, the page is updated once, in place, with the next revision number, and nothing is created |
| ConfluencePublish.CreationTriesInOrder | src/publish_to_confluence.py:158-184 | creation posts to the two addresses in order and stops at the first 200 or 201; it returns that body exactly when its success message can be printed (a dict whose `_links`, if any, is a dict), and raises after posting to both when neither created the page |
| ConfluenceFix.FixTitle | src/confluence_fix.py:112-118 | the title is "Release Notes - <version>", with " (<timestamp>)" added exactly when a page with that title exists and updating was not asked for |
| ConfluenceFix.CollisionTitleDiffers | src/confluence_fix.py:114-118 | on a collision the new title differs from the existing page's title and extends it |
| ConfluenceFix.FullUrl | src/confluence_fix.py:129 | a page address starts with the base; a dict answer without `_links` gives the base itself; an answer that is not a dict raises |
| ConfluenceFix.FixOutcome | src/confluence_fix.py:125-131 | a failed post propagates, a failing status raises the HTTP error, a non-failing answer gives its body with the page address, and an address that cannot be built is the error |
| ConfluenceFix.PublishFixed | src/confluence_fix.py:7-131 | the publisher sends exactly the search and the post of its specification, running the shared converter on the notes |
| ConfluenceFix.AlwaysCreates | src/confluence_fix.py:107-125 | the page is always created with one POST to the base's /wiki content endpoint, with no version or id, whether or not a page exists and whether or not updating was asked for |
| ConfluenceFix.PlaceholderDefaults | src/confluence_fix.py:14-17 | with no settings the placeholder base and the space MFS are used, and nothing stops the publication early |
| ConfluenceFix.TitleOnCollision | src/confluence_fix.py:112-122 | the search uses the plain title; the page keeps the plain title exactly unless a page exists and updating was not asked for |
| LlmService.DetectProvider | src/llm_service.py:27-40 | the provider chosen is always a key of the provider table |
| LlmService.ProviderOrder | src/llm_service.py:27-40 | each provider is chosen exactly when its own test holds and every earlier test failed: gpt-/o1- first, then ollama/, template-, a slash anywhere, claude- |
| LlmService.SlashBeforeClaude | src/llm_service.py:35-38 | a `claude-` name holding a slash goes to the router, not to the direct provider |
| LlmService.UnsupportedProviderUnreachable | src/llm_service.py:268-275 | the "Unsupported provider" error can never be raised: every detected provider is in the table |
| LlmService.ClassifyLlm | src/llm_service.py:377-386 | a line is a heading exactly when its stripped form starts with `#`, its key being the line stripped of `#` and blanks, lower-cased, spaces turned into `_` |
| LlmService.ParseLlmOutput | src/llm_service.py:392-396 | the parse never returns an empty mapping |
| LlmService.GatherTexts | src/llm_service.py:385-386 | a run of text lines only extends the open section's lines |
| LlmService.PreambleDropped | src/llm_service.py:369-386 | lines before the first heading are dropped |
| LlmService.GatherUnkeyed | src/llm_service.py:379-390 | a section whose key is empty is never saved |
| LlmService.NoHeadingIsContent | src/llm_service.py:392-396 | with no heading of non-empty key, the result is exactly the whole answer under `content` |
| LlmService.RepeatedHeadingOverwrites | src/llm_service.py:379-390 | a repeated heading overwrites the earlier section: only the last body, joined and stripped, is kept under the key |
| LlmService.ParseSections | src/llm_service.py:369-390 | the line loop, saving each section when the next heading comes and the last one at the end, gives exactly the specified sections |
| LlmService.ParseLlmAnswer | src/llm_service.py:367-396 | `parse_llm_output` gives exactly the specified result |
| LlmService.Head | src/llm_service.py:159-207 | slicing succeeds exactly for a string or a list, keeps at most the bound, and keeps a string's first characters |
| LlmService.DevCommit | src/llm_service.py:155-162 | a developer commit entry has exactly hash, author, subject, body, type and url, the body at most 200 long |
| LlmService.UserCommit | src/llm_service.py:167-171 | a user commit entry exists exactly for a dict and has exactly subject, type and author |
| LlmService.CommitLimits | src/llm_service.py:146-173 | an empty list gives "No commits provided"; developers get at most 50 entries with bodies of at most 200 characters, other audiences at most 30 with three fields |
| LlmService.FormatCommitsForPrompt | src/llm_service.py:146-173 | the append loops give exactly the specified entries |
| LlmService.IssueLimits | src/llm_service.py:175-195 | an empty list gives "No issues provided"; at most 30 entries; body (at most 300 characters) and url appear exactly for developers |
| LlmService.FormatIssuesForPrompt | src/llm_service.py:175-195 | the append loop gives exactly the specified entries |
| LlmService.ReleaseEntry | src/llm_service.py:204-208 | a release entry has exactly version, name and summary, the summary at most 500 long |
| LlmService.ReleaseLimits | src/llm_service.py:197-210 | no releases give "None"; otherwise at most three entries, each summarised in at most 500 characters |
| LlmService.FormatPreviousReleases | src/llm_service.py:197-210 | the append loop gives exactly the specified entries |
| LlmService.AudienceInstructions | src/llm_service.py:212-228 | the instructions are empty exactly for an audience other than users, developers and managers |
| LlmService.DefaultSections | src/llm_service.py:230-237 | every audience other than developers and managers gets the users' section list |
| LlmService.UnknownAudience | src/llm_service.py:212-237 | an unknown audience gets no instructions and the users' sections |
| FallbackLlm.OllamaEntry | src/fallback_llm.py:46-52 | a listed model gives an option exactly when it is an object with a string `name`; its id is "ollama/" and the name, its label "Ollama: " and the title-cased name |
| FallbackLlm.OllamaModelsShape | src/fallback_llm.py:38-58 | no models when the server is unreachable or answers other than 200; otherwise one option per listed model, in order, each id being "ollama/" and the model's name; when every entry is usable there are exactly as many options as entries, and a single unusable entry gives none at all |
| FallbackLlm.CollectOllamaModels | src/fallback_llm.py:44-54 | the loop over the listed models builds exactly the list `OllamaModels` describes, giving up with none at the first unusable entry |
| FallbackLlm.FallbackModels | src/fallback_llm.py:9-26 | the template option is always last; alone when Ollama is unavailable, after Ollama's models otherwise |
| FallbackLlm.PrefixedNameRoutesToOllama | src/fallback_llm.py:48 | an "ollama/"-prefixed id is routed to the Ollama provider by the model dispatcher, whatever follows the prefix |
| FallbackLlm.FallbackModelsRoute | src/fallback_llm.py:9-26 | every fallback option is routed to a provider that serves it: the Ollama ones to Ollama, the template option to the template |
| FallbackLlm.CommitLine | src/fallback_llm.py:75-77 | a commit line exists exactly for an object and reads "- " + its subject ("Update" when absent) |
| FallbackLlm.IssueLine | src/fallback_llm.py:82-88 | an issue line exists exactly for an object |
| FallbackLlm.IssueNumberShown | src/fallback_llm.py:83-88 | the issue line carries " (#number)" exactly when the number is truthy, and a missing number gives the bare title |
| FallbackLlm.TemplateFailsOnNonObject | src/fallback_llm.py:61-103 | the template raises exactly when one of the first five commits or the first five issues is not an object |
| FallbackLlm.TemplateListsFirstFive | src/fallback_llm.py:64-101 | the filled template counts all commits and issues but lists one line for each of the first five commits and of the first five issues, in order |
| FallbackLlm.AppendLines | src/fallback_llm.py:75-88 | the appending loop yields the text followed by every item's line in order, or the first item's error |
| FallbackLlm.FillTemplate | src/fallback_llm.py:74-101 | the commit lines, the Bug Fixes heading and the issue lines between the head and the foot, or the first error, commits before issues |
| FallbackLlm.GenerateWithTemplate | src/fallback_llm.py:61-103 | the rendered notes of the template document, or the error of the first non-object among the listed commits and issues |
| FallbackLlm.GeneratedText | src/fallback_llm.py:120-126 | a non-200 status gives "Ollama error: " and the status; an exception gives the failure message (its text is not modelled) |
| FallbackLlm.GenerateWithOllama | src/fallback_llm.py:106-126 | never raises: a failed request is a failure, a non-200 a status error, a 200 object its `response` field ("Generation failed" when absent) |
| FallbackLlm.ListedIdRoundTrip | src/fallback_llm.py:109 | an id built from the model list is sent to Ollama under the model's own name (for a name that does not itself contain "ollama/") |
| EnhancedPipeline.OutputPath | src/enhanced_generate_notes.py:123-128 | the reported path is `str(Path(...))` of the given file, or of `release_<version>.md` in the examples folder |
| EnhancedPipeline.KeptComponents | src/enhanced_generate_notes.py:124 | the path's components keep their order and lose the empty ones and "." |
| EnhancedPipeline.NormalPathUnchanged | src/enhanced_generate_notes.py:124 | a relative path with no empty or "." component is reported as it is |
| EnhancedPipeline.PathTextIdempotent | src/enhanced_generate_notes.py:124 | a relative path is reported in normal form, so normalising it again changes nothing |
| EnhancedPipeline.OutputPathKeepsNormal | src/enhanced_generate_notes.py:123-124 | a given output file already in normal relative form is reported as given |
| EnhancedPipeline.IngestionMetadata | src/data_ingestion.py:439-447 | the ingestion metadata has exactly the keys version, repo, sources and ingested_at, in that order, each once |
| EnhancedPipeline.Summarise | src/enhanced_generate_notes.py:174-178 | the counts exist exactly when the issues have a length, and are then the numbers of commits, issues and previous releases ingested |
| EnhancedPipeline.GenerateEnhanced | src/enhanced_generate_notes.py:21-190 | the result always names the version; each step's failure (ingestion, counting the issues, generation, the missing model entry, the write) ends in the error result carrying that step's error, in the source's order; when every step succeeds the result is a success with the generated text and the model footer, the output path, the generated sections, the merged metadata and the data counts, and a publishing result exactly when the platform list is non-empty |
| EnhancedPipeline.FooterAppendedOnce | src/enhanced_generate_notes.py:113-115 | the final text is the generated text followed by exactly one model footer |
| EnhancedPipeline.IngestionMetadataWins | src/enhanced_generate_notes.py:169-172 | the result's metadata holds generation's entries and ingestion's, ingestion winning on a clash, so the version is always ingestion's |
| EnhancedPipeline.MissingModelFails | src/enhanced_generate_notes.py:113-115 | a generation without a model entry ends in the KeyError result before anything is written |
| ApiEndpoints.ValidateGenerationRequest | src/api_endpoints.py:741-762 | a request passes exactly when it has a truthy version and its audience, commit source and issue source, where present, are among the allowed values; a failure carries one of the four fixed messages |
| ApiEndpoints.ValidationOrder | src/api_endpoints.py:745-760 | the checks run in the order version, audience, commit source, issue source, and the first one to fail decides the message; each of the four failures is stated with all earlier checks passing |
| ApiEndpoints.VersionAlonePasses | src/api_endpoints.py:743-747 | a request holding only a truthy version passes: every other field is optional |
| ApiEndpoints.ValidatedSourcesAreSupported | src/api_endpoints.py:754-760 | a validated request's commit source resolves to the forge or to git, and its issue source is one the issue step accepts |
| ApiEndpoints.PlaceholderTokensRejected | src/api_endpoints.py:160-173 | a forge token starting with `your_` or of ten characters or fewer never counts as configured, nor do wiki settings whose token starts with `your_` or whose user starts with `you@` |
| ApiEndpoints.Details | src/api_endpoints.py:181-185 | each wiki detail is shown only when it is set and not a placeholder; with the wiki configured all of them are shown |
| ApiEndpoints.PairOf | src/api_endpoints.py:206 | an element of a sequence update is a pair exactly when it is a two-item list with a string key or a two-character string; other lengths raise ValueError and scalars TypeError |
| ApiEndpoints.Pairs | src/api_endpoints.py:206 | a sequence update is accepted exactly when every element is a pair, and then gives those pairs in order |
| ApiEndpoints.LastNaming | src/api_endpoints.py:206 | the index found is that of the last pair naming the key, or none names it |
| ApiEndpoints.ApplyPairsLookup | src/api_endpoints.py:206 | after a sequence update a key is present when it was before or a pair names it, and holds the value of the last pair naming it, or its old value |
| ApiEndpoints.DictUpdate | src/api_endpoints.py:206 | `dict.update` succeeds exactly for a dict, the empty string or a list of pairs: a dict is merged key by key, the empty string changes nothing and a list is applied pair by pair |
| ApiEndpoints.UpdateSection | src/api_endpoints.py:205-208 | updating a section succeeds exactly when the config holds it as a dict and `dict.update` accepts the value, and then the section is replaced by the updated one; a missing section raises KeyError |
| ApiEndpoints.UpdateSectionPairs | src/api_endpoints.py:205-208 | with a list of pairs the section ends up holding, for each key named, the value of the last pair naming it |
| ApiEndpoints.DictUpdatePairs | src/api_endpoints.py:206 | dict.update with a list of pairs leaves every key a pair names with the value of the last pair naming it |
| ApiEndpoints.UpdateConfig | src/api_endpoints.py:193-218 | `repo` is overwritten when given, `llm` and `publish` are updated with `dict.update` semantics (a dict, the empty string or a list of pairs), every other entry is kept, and an update or save failure is the error |
| ApiEndpoints.UploadIssues | src/api_endpoints.py:346-395 | a missing or unnamed file is rejected with 400; an accepted file is a JSON list or a dict with `issues`, saved as `uploads/issues_<timestamp>_<secured name>` |
| ApiEndpoints.UploadAcceptsIssueShapes | src/api_endpoints.py:376-389 | a JSON list or a dict with an `issues` list is accepted and its length reported; any other JSON is rejected as an invalid structure |
| ApiEndpoints.CollectPlatforms | src/api_endpoints.py:461-467 | the appended platform list equals the flags' platform list |
| ApiEndpoints.PlatformsInFixedOrder | src/api_endpoints.py:456-467 | each set flag contributes its platform exactly once, in the fixed order confluence, github, slack |
| ApiEndpoints.EnhancedArguments | src/api_endpoints.py:425-475 | a falsy version is answered with `Version is required`; a truthy version with no truthy repo, given or configured, is answered with `Repository not specified`; the arguments are accepted exactly when the version and a repo are truthy; accepted arguments keep the given version and the given repo when it is truthy, else the config's, the sources and audience with their defaults, and the platform list of the three flags in the fixed order |
| EnhancedEndpoints.Number | test_confluence_debug.py:452 | a leading run of digits, when there is one, is consumed, so what follows is strictly shorter |
| EnhancedEndpoints.DigitRunOf | test_confluence_debug.py:452 | a run of digits followed by a non-digit, or by nothing, is matched exactly as that run |
| EnhancedEndpoints.NumberOf | test_confluence_debug.py:452-454 | a rendered number followed by a non-digit is read back as that number, with the rest left over |
| EnhancedEndpoints.NumberDotOf | test_confluence_debug.py:452-454 | a rendered number followed by a dot is read back as that number and the text after the dot |
| EnhancedEndpoints.NumbersOf | test_confluence_debug.py:452-454 | three rendered numbers joined by dots are read back as that triple, whatever non-digit text follows |
| EnhancedEndpoints.StripOneV | test_confluence_debug.py:449 | stripping leading `v` characters removes exactly one `v` in front of a digit |
| EnhancedEndpoints.RenderParses | test_confluence_debug.py:449-465 | a suggested version `v<major>.<minor>.<patch>` parses back to its triple, whatever non-digit text follows it |
| EnhancedEndpoints.RenderParsesAlone | test_confluence_debug.py:449-465 | a suggested version parses back to its triple |
| EnhancedEndpoints.PrereleaseSuffixIgnored | test_confluence_debug.py:452 | the match is anchored only at the start, so `v1.2.3-beta` parses as 1.2.3 |
| EnhancedEndpoints.NoLeadingNumber | test_confluence_debug.py:449-453 | a name starting with neither `v` nor a digit is not a version |
| EnhancedEndpoints.TwoNumbersIsNoVersion | test_confluence_debug.py:452-453 | `1.2` is not a version: all three numbers are required |
| EnhancedEndpoints.ParsedMembers | test_confluence_debug.py:447-455 | a triple is collected exactly when some entry of the list parses to it |
| EnhancedEndpoints.MaxTriple | test_confluence_debug.py:461 | the latest version is one of the parsed triples and no parsed triple is greater in tuple order |
| EnhancedEndpoints.ParseAll | test_confluence_debug.py:445-455 | the parsing loop collects the triples of the parsable entries, in order |
| EnhancedEndpoints.SuggestNextVersion | test_confluence_debug.py:439-465 | the loop's suggestion is the greatest parsed version with its patch raised by one, or v1.0.0 without one |
| EnhancedEndpoints.NoVersionSuggestsFirst | test_confluence_debug.py:441-458 | with no parsable entry, in particular with none at all, the suggestion is v1.0.0 |
| EnhancedEndpoints.NextVersionAbove | test_confluence_debug.py:457-465 | the suggestion parses and is strictly greater than every parsable version it was derived from |
| EnhancedEndpoints.NextVersionFromInput | test_confluence_debug.py:461-465 | the suggestion is one of the parsed versions with its patch number raised by one |
| EnhancedEndpoints.Spaced | test_confluence_debug.py:321 | every dash and underscore becomes a space and every other character is kept, position by position |
| EnhancedEndpoints.FormatModelName | test_confluence_debug.py:314-337 | the step-by-step rewrite gives the display name: prefixes removed, separators spaced, words title-cased, spellings fixed |
| EnhancedEndpoints.DisplayNameLacks | test_confluence_debug.py:317-335 | a formatted model name holds no dash and no underscore |
| EnhancedEndpoints.NewTags | test_confluence_debug.py:373-381 | each added entry is a tag entry for a tag of the list that was not already listed, and no more entries than tags |
| EnhancedEndpoints.ReleaseEntries | test_confluence_debug.py:357-363 | one entry per release, in order, named by the release's name or its tag when the name is empty |
| EnhancedEndpoints.ForgeListShape | test_confluence_debug.py:357-381 | the forge list starts with the entries of the first ten releases, in order, followed by at most fifteen tag entries none of which repeats a release's tag, and by none when the tag request did not answer 200 |
| EnhancedEndpoints.CollectReleases | test_confluence_debug.py:357-363 | the release loop yields the release entries |
| EnhancedEndpoints.CollectNewTags | test_confluence_debug.py:373-381 | the tag loop yields the new tag entries |
| EnhancedEndpoints.GetGithubVersions | test_confluence_debug.py:340-390 | the two loops give the forge list with its suggestion; a failed release request gives the empty list with v1.0.0 |
| EnhancedEndpoints.NonBlank | test_confluence_debug.py:409 | only non-blank lines are kept, each one a line of the input |
| EnhancedEndpoints.TagLines | test_confluence_debug.py:408-411 | at most ten tag lines are used, none of them blank |
| EnhancedEndpoints.Dated | test_confluence_debug.py:411-427 | each tag keeps its position and gets its looked-up date, or an empty date when the lookup failed |
| EnhancedEndpoints.DateTags | test_confluence_debug.py:411-427 | the tag loop yields the dated tags |
| EnhancedEndpoints.GetLocalVersions | test_confluence_debug.py:393-436 | the local list is the dated tags with their suggestion, and empty with v1.0.0 when git cannot be started |
| EnhancedEndpoints.DatedShape | test_confluence_debug.py:411-427 | dating keeps the tags and their order, and every entry is a non-blank local tag |
| EnhancedEndpoints.LocalVersionsShape | test_confluence_debug.py:407-432 | the local list has at most ten non-blank tags and its suggestion is taken from those tags |
| EnhancedEndpoints.AvailableVersions | test_confluence_debug.py:141-185 | the answer always lists some versions, and names the forge as its source exactly when a token and a repository are set |
| EnhancedEndpoints.VersionFallbackOrder | test_confluence_debug.py:150-170 | the forge's list wins when it is asked and has entries; otherwise the local list when it has entries; otherwise the two default versions with v1.0.0 |
| EnhancedEndpoints.ForgeFailureReportsForge | test_confluence_debug.py:151-184 | a failed forge request falls through to the local list while the answer still names the forge as its source |
| EnhancedEndpoints.FreeById | test_confluence_debug.py:79-80 | the id tests never raise for a string, list or dict id: a string is free when listed or containing ":free", a list when it holds ":free", a dict when it has the key ":free"; null, a number or a boolean raises TypeError |
| EnhancedEndpoints.IsFree | test_confluence_debug.py:74-83 | the free test succeeds only on a dict whose id the id tests accept; an id the tests find free makes the model free, and so does a missing pricing |
| EnhancedEndpoints.UnpricedModelIsFree | test_confluence_debug.py:81 | a model with no pricing counts as free: its missing prompt price defaults to zero |
| EnhancedEndpoints.StringZeroPriceIsNotZero | test_confluence_debug.py:78-83 | a prompt price given as the string "0" does not equal zero, so only the name can still make the model free |
| EnhancedEndpoints.FreeEntry | test_confluence_debug.py:85-91 | a model yields an entry exactly when it is free, and that entry is marked Free |
| EnhancedEndpoints.FreeEntries | test_confluence_debug.py:73-91 | the free entries are at most as many as the models, all marked Free, and the loop succeeds only when every model is a dict |
| EnhancedEndpoints.CollectFreeModels | test_confluence_debug.py:73-91 | the free-model loop yields the free entries or the first model's failure |
| EnhancedEndpoints.FirstErrorStays | test_confluence_debug.py:73-91 | once a prefix of the listing fails, the whole listing fails with the same error |
| EnhancedEndpoints.FirstWithId | test_confluence_debug.py:95 | a model found for an id carries that id |
| EnhancedEndpoints.PremiumEntry | test_confluence_debug.py:95-102 | a premium entry carries the id it was looked up by and is marked Premium |
| EnhancedEndpoints.PremiumEntries | test_confluence_debug.py:94-102 | at most one entry per premium id, each marked Premium and for an id of the premium list |
| EnhancedEndpoints.Fallbacks | test_confluence_debug.py:24-28 | one entry per fallback option, in order |
| EnhancedEndpoints.OpenRouterModels | test_confluence_debug.py:19-138 | a successful answer starts with the template entry; without a key or with a failed request it is the template entry followed by the fallback options, labelled as the fallback; only a listing of the wrong shape fails |
| EnhancedEndpoints.ListingOrder | test_confluence_debug.py:104-127 | a listing gives the template entry, then its free models, then its premium ones; with none found, the three fixed free models and the fallback options follow the template entry |
| EnhancedEndpoints.PlaceholderBasePassesTest | test_confluence_debug.py:206 | the connection test accepts the example base URL that the config endpoint does not count as configured |
| Server.ReleaseFiles | src/server.py:26 | a file is listed exactly when it is in the folder and matches `release_*.md` |
| Server.LeadNewestFirst | src/server.py:26 | a file no older than every file of a newest-first list can be put in front of it |
| Server.Insert | src/server.py:26 | inserting keeps every file and adds the new one once, and keeps a newest-first list newest first |
| Server.SortNewestFirst | src/server.py:26 | the sort is a permutation of the files with modification times never increasing |
| Server.Listing | src/server.py:76-80 | the listing holds exactly the folder's release files, each once, newest first |
| Server.ListNotes | src/server.py:23-35 | one row per listed file, in the listing's order, with its name, its path in the examples folder and its modification time |
| Server.LatestNote | src/server.py:38-46 | there is no latest note exactly when the folder has no release file; otherwise it is a release file of the folder no older than any other |
| Server.StrippedLines | src/server.py:51 | only non-blank lines are kept |
| Server.ReadReleaseFile | src/server.py:49-66 | the record is never a draft or pre-release, has no URL, carries the file's path and time, and an empty name only with an empty tag |
| Server.VersionFileStem | src/server.py:56 | the release file named after a version matches the glob and has the prefixed version as its stem |
| Server.TagOfPrefixed | src/server.py:56 | removing the prefix from a prefixed version gives the version back when it holds no other copy of the prefix |
| Server.DefaultOutputInExamples | src/enhanced_generate_notes.py:123-128 | for a version without a slash, the enhanced pipeline's default output is the release file of the version in the examples folder |
| Server.PipelineFileTag | src/server.py:49-66 | for a version without a slash, a file the enhanced pipeline saves by default is listed and read back with the version as its tag |
| Server.StemStartsWithPrefix | src/server.py:52-54 | a release file's stem starts with the prefix, never with `#` |
| Server.BlankContentTitle | src/server.py:51-54 | content without a non-blank line is titled by the stem |
| Server.BlankFileNamedByStem | src/server.py:51-59 | a file without a non-blank line is named after its whole stem, prefix included, not after its tag |
| Server.ListReleases | src/server.py:69-93 | one record per listed file, in the listing's order, each carrying that file's path |
| Server.FirstMatch | src/server.py:100-103 | the file found passes the test and no earlier file does, and there is none exactly when no file passes |
| Server.ChosenFile | src/server.py:98-103 | the chosen file is a release file; it is the first exactly named file when one exists, otherwise the first release file whose stem ends with the tag, and there is none exactly when neither kind exists |
| Server.GetRelease | src/server.py:96-110 | nothing is found exactly when no file has the exact name and no release file's stem ends with the tag; when an exactly named file exists the release is read from the first one; otherwise a found release is read from the first release file whose stem ends with the tag |
| Server.ExactNameIsReleaseFile | src/server.py:100 | a name of the form `release_<tag>.md` matches the release glob |
| Server.ExactFileWins | src/server.py:100-109 | the exact file wins over any file whose stem merely ends with the tag, and its whole content is returned |
| Server.EmptyTagPicksFirst | src/server.py:101-108 | an empty tag without a file named `release_.md` matches every stem, so the first release file is returned |
| Server.GenerateArguments | src/server.py:130-144 | the 400 is answered exactly when neither the body nor the config gives a truthy repository; otherwise a falsy version becomes the timestamp tag and the forge is used unless the body says otherwise |
| Server.UrlAt | src/server.py:194 | a URL read at the start of the text is a non-empty prefix of it that starts with `http` and holds no blank |
| Server.SearchUrl | src/server.py:213 | a URL found in a line starts with `http` and holds no blank |
| Server.ExtractConfluenceUrl | src/server.py:190-220 | the line loop stops at the first line yielding a link and returns that link |
| Server.FirstFoundIsFirst | src/server.py:192-220 | a link is found exactly when some line yields one, and then it is that line's link with no earlier line yielding one |
| Server.UrlAtReadsWholeUrl | src/server.py:194 | a URL running up to the next blank is read whole |
| Server.PublishedLineYieldsUrl | src/server.py:194 | the generator's `Published to Confluence: <url>` line yields that URL |
| Server.Generate | src/server.py:113-234 | a missing repository answers the 400; the answer is generated exactly when the arguments are accepted and the generator exits with 0, and then carries the chosen version, the generator's output, the first link extracted from it when publishing was requested and the fresh release list; a failed run answers its exit code with its error output or `Generation failed` |

## Left out

- I/O is not performed. Requests, git and process runs, SMTP, file reads and writes, directory globbing, `mkdir`, dotenv reloads and config loading are all inputs of the model: outcomes, maps and sequences. Where an operation writes a file, only the fact that the write succeeded or failed is modelled.
- The clock and file modification times are parameters. Timestamps arrive already rendered as strings.
- The forge's `Link` header (RFC 8288, section 3) is not parsed. Each page's `next` link is an abstract option. When the supplied page answers run out, a paging loop is taken to end there.
- Base64 decoding of the changelog content (RFC 4648, section 4) and its UTF-8 decoding form a parameter of the changelog lookup.
- Exception messages built with `str(e)`, `json.dumps` and f-strings over exceptions are not rendered. An error is a structured `Errors.Error` value, and each fixed message text is kept.
- `print` and logging output is left out, and so are the debug prints of the endpoints.
- The language-model provider calls and prompt assembly are not modelled: `src/llm_service.py:88-144` and `src/llm_service.py:277-365`. They depend on foreign SDKs, template files and `str.format`, and the temperature is a float. The dispatch that chooses between them is modelled.
- Also outside this model:
  - `create_audience_template` and `list_available_models` in `src/llm_service.py`;
  - all of `src/generate_notes.py`.
- `upload_json_data` in `src/data_ingestion.py:373-390` is not part of this model. It only writes a JSON file.
- The Flask layer is left out: routes, CORS, the error handlers that turn an uncaught exception into a 500, and response assembly. The endpoint functions' decisions are modelled. The HTTP status is modelled only where the code chooses it.
- Server.Generate: several parts of `src/server.py` are not modelled:
  - the generator's 300-second timeout;
  - any other exception (both become the 500 answer);
  - the command line passed to the generator (`src/server.py:147-167`).
- The sorts by modification time are proved to be permutations ordered newest first. Sort stability, that is the order among files with equal times, is not stated.
- Unicode handling is limited:
  - `lower()`, `upper()` and `title()` act on ASCII letters only; other characters pass through unchanged;
  - `isspace()` follows Python's set of whitespace characters;
  - `\w` and `\d` are ASCII.
- Glob patterns are modelled only as the fixed `release_*.md` and `release_<tag>.md` matches. A tag holding glob metacharacters is matched literally.
- Integers are unbounded, as in Python. JSON numbers are integers, because the core never reads a float.
- A JSON document's "absent" and `null` are told apart only where the code reads a key with a default.
- `str()` of a list or dict inside a raw record is rendered as a fixed marker (`JsonValue.Str`). Scalars are rendered as Python renders them.
- Field-level failures inside a forge answer (a missing key, or a value of the wrong type) are folded into that answer's error outcome.
- A failed `git log` date lookup for one tag gives an empty date. An exception raised by that lookup is folded into the failure of the whole local listing.
- A config body that is not a dict (in `update_config`) is not modelled. The request body is a map.
- Timestamp parsing is a parameter (`instant`): a parsed time is its place on the time line and whether it carries a UTC offset; `datetime.fromisoformat` itself is not modelled.
- IngestionLoaders.LabelList: a dict's key order is not in the decoded value (a map), so it is the parameter `keyOrder`, the order the document listed the keys in.
- ApiEndpoints.PairOf: a pair whose key is null, a number or a boolean is hashable in Python and would add a non-string key; the model's sections have string keys, so it raises there instead. A two-key dict element (whose keys would be the pair) raises too.
- Server.DefaultOutputInExamples: stated only for versions without a slash, since a slash in the version adds path components that normalisation can change.
- Server.PipelineFileTag: stated only for versions without a slash, for the same reason.
- LlmService.ParseLlmOutput: its own contract states only that the result is non-empty; the lemmas beside it state the heading rule, the dropped preamble, the overwriting and the no-heading case.
- ConfluenceStorage.Bold: its own contract states only that text without `*` is unchanged and that no line break is introduced; the rewriting is stated by the lemmas beside it.
- ConfluenceStorage.Italic: same as Bold, for single `*`.
