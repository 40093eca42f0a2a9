/**
 * The typed records the adapters produce: commits (from `git log` or the forge), the
 * forge's release objects, and the previous-release records handed to generation.
 */
module Records {
  import opened Outcomes
  import opened Text

  /** The extra keys a forge commit carries beyond a local one. */
  datatype ForgeFields = ForgeFields(fullHash: string, url: string, authorLogin: string)

  /**
   * A normalised commit. A local commit has the six keys hash, author, subject, body,
   * date and commit_date; a forge commit also has full_hash, url and author_login.
   */
  datatype Commit = Commit(
    hash: string, author: string, subject: string, body: string,
    date: string, commitDate: string, forge: Option<ForgeFields>)

  /**
   * A commit object of the forge's REST API, with the `.get(key, '')` defaults already
   * applied. `author` is the forge user: None when it is null or absent, otherwise its
   * login ('' when the user has none).
   */
  datatype ApiCommit = ApiCommit(
    sha: string, message: string, authorName: string, authorDate: string,
    committerDate: string, htmlUrl: string, author: Option<string>)

  /** The first line of a commit message. */
  function Subject(message: string): (r: string)
  {
    Split(message, '\n')[0]
  }

  /** The lines after the first, joined back with newlines and stripped. */
  function Body(message: string): string {
    Strip(Join(Split(message, '\n')[1..], "\n"))
  }

  /** The commit record the forge adapters build from one API commit object. */
  function NormaliseCommit(c: ApiCommit): (r: Commit)
    ensures r.hash == Prefix(c.sha, 7) && r.forge.Some? && r.forge.value.fullHash == c.sha
    ensures r.author == c.authorName && r.date == c.authorDate && r.commitDate == c.committerDate
    ensures r.forge.value.url == c.htmlUrl
    ensures c.author.None? ==> r.forge.value.authorLogin == ""
    ensures c.author.Some? ==> r.forge.value.authorLogin == c.author.value
    ensures r.subject == Subject(c.message) && r.body == Body(c.message)
  {
    Commit(
      Prefix(c.sha, 7), c.authorName, Subject(c.message), Body(c.message),
      c.authorDate, c.committerDate,
      Some(ForgeFields(c.sha, c.htmlUrl, if c.author.Some? then c.author.value else "")))
  }

  /** One normalised record per API element, in order. */
  function NormaliseCommits(cs: seq<ApiCommit>): (r: seq<Commit>)
    ensures |r| == |cs|
  {
    if cs == [] then [] else NormaliseCommits(cs[..|cs| - 1]) + [NormaliseCommit(cs[|cs| - 1])]
  }

  /** The i-th normalised record is the normalisation of the i-th API element. */
  lemma {:induction false} NormaliseCommitsAt(cs: seq<ApiCommit>, i: nat)
    requires i < |cs|
    ensures NormaliseCommits(cs)[i] == NormaliseCommit(cs[i])
  {
    if i < |cs| - 1 {
      NormaliseCommitsAt(cs[..|cs| - 1], i);
    }
  }

  /**
   * The subject/body split loses nothing but the body's surrounding whitespace: the
   * message is the subject, then (when there is a newline) a newline and a text whose
   * strip is the body.
   */
  lemma SubjectBodySplit(message: string)
    ensures '\n' !in Subject(message)
    ensures '\n' !in message ==> Subject(message) == message && Body(message) == ""
    ensures '\n' in message ==>
      exists rest :: message == Subject(message) + "\n" + rest && Body(message) == Strip(rest)
  {
    var parts := Split(message, '\n');
    JoinSplit(message, '\n');
    if '\n' in message {
      var i := Find(message, '\n');
      assert message[i] == '\n';
      assert |parts| > 1;
      var rest := Join(parts[1..], "\n");
      assert message == parts[0] + "\n" + rest;
    } else {
      SplitWithoutSeparator(message, '\n');
      assert Strip("") == "";
    }
  }

  /**
   * A release object of the forge's REST API. `name`, `body` and `published_at` may be
   * null; `author` is the login of the author object, None when that object is null;
   * `prerelease` and `draft` are None when the key is absent.
   */
  datatype ApiRelease = ApiRelease(
    tagName: string, name: Option<string>, body: Option<string>, publishedAt: Option<string>,
    createdAt: string, author: Option<string>, prerelease: Option<bool>, draft: Option<bool>,
    htmlUrl: string)

  /** The release record the release fetchers return (tag_name, …, draft, url). */
  datatype ReleaseInfo = ReleaseInfo(
    tagName: string, name: Option<string>, body: Option<string>, publishedAt: Option<string>,
    createdAt: string, author: string, prerelease: bool, draft: bool, url: string)

  /** The release fetchers' normalisation: author '' when null, flags False when absent. */
  function NormaliseRelease(a: ApiRelease): (r: ReleaseInfo)
    ensures r.tagName == a.tagName && r.name == a.name && r.body == a.body
    ensures r.publishedAt == a.publishedAt && r.createdAt == a.createdAt && r.url == a.htmlUrl
    ensures r.author == (if a.author.Some? then a.author.value else "")
    ensures r.prerelease <==> a.prerelease == Some(true)
    ensures r.draft <==> a.draft == Some(true)
  {
    ReleaseInfo(
      a.tagName, a.name, a.body, a.publishedAt, a.createdAt,
      if a.author.Some? then a.author.value else "",
      if a.prerelease.Some? then a.prerelease.value else false,
      if a.draft.Some? then a.draft.value else false,
      a.htmlUrl)
  }

  function NormaliseReleases(rs: seq<ApiRelease>): (r: seq<ReleaseInfo>)
    ensures |r| == |rs|
    ensures forall i :: 0 <= i < |rs| ==> r[i] == NormaliseRelease(rs[i])
  {
    seq(|rs|, i requires 0 <= i < |rs| => NormaliseRelease(rs[i]))
  }

  /**
   * A previous-release record as the ingestion layer hands it to generation. None
   * stands for a null value or an absent key (changelog records have no published_at
   * or url); `source` names the loader.
   */
  datatype Release = Release(
    version: Option<string>, name: Option<string>, body: Option<string>,
    publishedAt: Option<string>, url: Option<string>, source: string)
}
