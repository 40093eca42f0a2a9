/**
 * The legacy server's view of the saved notes: release records derived from the
 * examples folder, listings newest first, the lookup of one release by tag, and the
 * generate endpoint's arguments and the wiki link it picks out of the generator's output.
 */
module Server {
  import opened Outcomes
  import opened Errors
  import opened Text
  import opened JsonValue
  import EnhancedPipeline

  // ---------------------------------------------------------------- the examples folder

  /** A file of the examples folder: its name, content, modification time and that time rendered in ISO form. */
  datatype ExampleFile = ExampleFile(name: string, content: string, mtime: int, modified: string)

  const ReleasePrefix := "release_"
  const NotesSuffix := ".md"
  const ExamplesDir := "examples/"

  /** The glob `release_*.md`. */
  predicate IsReleaseFile(name: string) {
    |name| >= |ReleasePrefix| + |NotesSuffix| && StartsWith(name, ReleasePrefix) && EndsWith(name, NotesSuffix)
  }

  /** The folder's release files, in the folder's order. */
  function ReleaseFiles(dir: seq<ExampleFile>): (fs: seq<ExampleFile>)
    ensures forall f :: f in fs <==> f in dir && IsReleaseFile(f.name)
  {
    if dir == [] then []
    else
      var last := dir[|dir| - 1];
      ReleaseFiles(dir[..|dir| - 1]) + (if IsReleaseFile(last.name) then [last] else [])
  }

  /** `Path.stem` of a release file: the name without `.md`. */
  function Stem(name: string): string
    requires IsReleaseFile(name)
  {
    name[..|name| - |NotesSuffix|]
  }

  /** Newest first: modification times never increase along the list. */
  predicate NewestFirst(fs: seq<ExampleFile>) {
    forall i, j :: 0 <= i < j < |fs| ==> fs[i].mtime >= fs[j].mtime
  }

  /** A file no older than every file of a newest-first list can lead it. */
  lemma LeadNewestFirst(x: ExampleFile, rest: seq<ExampleFile>)
    requires NewestFirst(rest) && forall y :: y in rest ==> y.mtime <= x.mtime
    ensures NewestFirst([x] + rest)
  {
    forall i, j | 0 <= i < j < |[x] + rest| ensures ([x] + rest)[i].mtime >= ([x] + rest)[j].mtime {
      assert ([x] + rest)[j] == rest[j - 1] && rest[j - 1] in rest;
      if i > 0 {
        assert ([x] + rest)[i] == rest[i - 1];
      }
    }
  }

  /** A file no older than the head of a newest-first list can lead it. */
  lemma LeadHead(f: ExampleFile, sorted: seq<ExampleFile>)
    requires sorted != [] && sorted[0].mtime <= f.mtime
    ensures NewestFirst(sorted) ==> NewestFirst([f] + sorted)
  {
    if NewestFirst(sorted) {
      forall y | y in sorted ensures y.mtime <= f.mtime {
        var k :| 0 <= k < |sorted| && sorted[k] == y;
        assert sorted[0].mtime >= sorted[k].mtime || k == 0;
      }
      LeadNewestFirst(f, sorted);
    }
  }

  /** The head of a newest-first list stays in front of the insertion into its tail. */
  lemma KeepHead(f: ExampleFile, sorted: seq<ExampleFile>, rest: seq<ExampleFile>)
    requires sorted != [] && f.mtime < sorted[0].mtime
    requires forall x :: x in rest ==> x in sorted[1..] || x == f
    requires NewestFirst(sorted[1..]) ==> NewestFirst(rest)
    ensures NewestFirst(sorted) ==> NewestFirst([sorted[0]] + rest)
  {
    if NewestFirst(sorted) {
      assert NewestFirst(sorted[1..]);
      forall y | y in rest ensures y.mtime <= sorted[0].mtime {
        if y != f {
          var k :| 0 <= k < |sorted[1..]| && sorted[1..][k] == y;
          assert sorted[k + 1] == y;
        }
      }
      LeadNewestFirst(sorted[0], rest);
    }
  }

  /** Puts `f` before the first file that is not newer than it. */
  function Insert(f: ExampleFile, sorted: seq<ExampleFile>): (r: seq<ExampleFile>)
    ensures multiset(r) == multiset(sorted) + multiset{f}
    ensures forall x :: x in r ==> x in sorted || x == f
    ensures NewestFirst(sorted) ==> NewestFirst(r)
  {
    if sorted == [] then [f]
    else if sorted[0].mtime <= f.mtime then
      LeadHead(f, sorted);
      [f] + sorted
    else
      var rest := Insert(f, sorted[1..]);
      assert sorted == [sorted[0]] + sorted[1..];
      KeepHead(f, sorted, rest);
      [sorted[0]] + rest
  }

  /** `sorted(files, key=mtime, reverse=True)`. */
  function SortNewestFirst(fs: seq<ExampleFile>): (r: seq<ExampleFile>)
    ensures multiset(r) == multiset(fs)
    ensures NewestFirst(r)
  {
    if fs == [] then []
    else
      assert fs == [fs[0]] + fs[1..];
      Insert(fs[0], SortNewestFirst(fs[1..]))
  }

  /** The release files of the folder, newest first. */
  function Listing(dir: seq<ExampleFile>): (fs: seq<ExampleFile>)
    ensures NewestFirst(fs)
    ensures forall f :: f in fs <==> f in dir && IsReleaseFile(f.name)
    ensures multiset(fs) == multiset(ReleaseFiles(dir))
  {
    var r := SortNewestFirst(ReleaseFiles(dir));
    assert forall f :: f in r <==> f in multiset(r);
    r
  }

  /** One row of the notes listing. */
  datatype NoteRow = NoteRow(name: string, path: string, modified: string)

  /** `list_notes`: every release file, newest first. */
  function ListNotes(dir: seq<ExampleFile>): (rows: seq<NoteRow>)
    ensures |rows| == |Listing(dir)|
    ensures forall i :: 0 <= i < |rows| ==>
      rows[i] == NoteRow(Listing(dir)[i].name, ExamplesDir + Listing(dir)[i].name, Listing(dir)[i].modified)
  {
    var fs := Listing(dir);
    seq(|fs|, i requires 0 <= i < |fs| => NoteRow(fs[i].name, ExamplesDir + fs[i].name, fs[i].modified))
  }

  /** `latest_note`: the newest release file, or none (the 404). */
  function LatestNote(dir: seq<ExampleFile>): (r: Option<ExampleFile>)
    ensures r.None? <==> forall f :: f in dir ==> !IsReleaseFile(f.name)
    ensures r.Some? ==> r.value in dir && IsReleaseFile(r.value.name)
    ensures r.Some? ==> forall f :: f in dir && IsReleaseFile(f.name) ==> f.mtime <= r.value.mtime
  {
    var fs := Listing(dir);
    if fs == [] then None
    else
      assert forall f :: f in fs ==> exists i :: 0 <= i < |fs| && fs[i] == f;
      Some(fs[0])
  }

  // ---------------------------------------------------------------- release records

  /** The record derived from a saved notes file. */
  datatype ReleaseRecord = ReleaseRecord(
    tagName: string, name: string, body: string, path: string, publishedAt: string,
    prerelease: bool, draft: bool, url: string)

  /** The stripped lines that are not blank. */
  function StrippedLines(lines: seq<string>): (ls: seq<string>)
    ensures forall l :: l in ls ==> l != []
  {
    if lines == [] then []
    else
      var last := Strip(lines[|lines| - 1]);
      StrippedLines(lines[..|lines| - 1]) + (if last != [] then [last] else [])
  }

  /** The title: the first non-blank line (the stem when there is none), with a leading `#` run and the blanks after it removed. */
  function Title(content: string, stem: string): string {
    var lines := StrippedLines(SplitLines(content));
    var first := if lines != [] then lines[0] else stem;
    if first != [] && first[0] == '#' then Strip(LStripChars(first, {'#'})) else first
  }

  /** The tag: the stem with every "release_" removed. */
  function TagOf(stem: string): string {
    ReplaceAll(stem, ReleasePrefix, "")
  }

  /** The body: the first thirty lines, joined and stripped. */
  function Snippet(content: string): string {
    Strip(Join(SliceTo(SplitLines(content), 30), "\n"))
  }

  /** `_read_release_file`. */
  function ReadReleaseFile(f: ExampleFile): (r: ReleaseRecord)
    requires IsReleaseFile(f.name)
    ensures !r.prerelease && !r.draft && r.url == ""
    ensures r.path == ExamplesDir + f.name && r.publishedAt == f.modified
    ensures r.name == "" ==> r.tagName == ""
  {
    var stem := Stem(f.name);
    var title := Title(f.content, stem);
    var tag := TagOf(stem);
    ReleaseRecord(tag, if title != "" then title else tag, Snippet(f.content), ExamplesDir + f.name, f.modified, false, false, "")
  }

  /** The release file named after a version has that version, prefixed, as its stem. */
  lemma VersionFileStem(version: string)
    ensures IsReleaseFile(ReleasePrefix + version + NotesSuffix)
    ensures Stem(ReleasePrefix + version + NotesSuffix) == ReleasePrefix + version
  {
    var name := ReleasePrefix + version + NotesSuffix;
    assert name[..|ReleasePrefix|] == ReleasePrefix;
    assert name[|name| - |NotesSuffix|..] == NotesSuffix;
    assert name[..|name| - |NotesSuffix|] == ReleasePrefix + version;
  }

  /** Removing the prefix from a prefixed version gives the version back when it holds no other copy. */
  lemma TagOfPrefixed(version: string)
    requires !Contains(version, ReleasePrefix)
    ensures TagOf(ReleasePrefix + version) == version
  {
    var stem := ReleasePrefix + version;
    assert stem[..|ReleasePrefix|] == ReleasePrefix;
    assert stem[|ReleasePrefix|..] == version;
    ReplaceAbsent(version, ReleasePrefix, "");
  }

  /**
   * For a version without a slash, the pipeline's default output path is the release
   * file of the version in the examples folder, unchanged by the path normalisation.
   */
  lemma DefaultOutputInExamples(version: string)
    requires '/' !in version
    ensures EnhancedPipeline.OutputPath(version, None) == ExamplesDir + (ReleasePrefix + version + NotesSuffix)
  {
    var name := ReleasePrefix + version + NotesSuffix;
    var path := "examples/release_" + version + ".md";
    assert path == ExamplesDir + name;
    assert '/' !in name by {
      assert forall j :: 0 <= j < |name| ==> name[j] == '/' ==> j >= |ReleasePrefix| && j < |ReleasePrefix| + |version|;
      forall j | |ReleasePrefix| <= j < |ReleasePrefix| + |version| ensures name[j] != '/' {
        assert name[j] == version[j - |ReleasePrefix|];
      }
    }
    assert path == Join(["examples", name], "/");
    SplitJoin(["examples", name], '/');
    assert name[0] == 'r';
    EnhancedPipeline.NormalPathUnchanged(path);
  }

  /** The file the enhanced pipeline saves by default is read back with the version as its tag. */
  lemma PipelineFileTag(version: string, content: string, mtime: int, modified: string)
    requires !Contains(version, ReleasePrefix) && '/' !in version
    ensures var name := ReleasePrefix + version + NotesSuffix;
      && EnhancedPipeline.OutputPath(version, None) == ExamplesDir + name
      && IsReleaseFile(name)
      && ReadReleaseFile(ExampleFile(name, content, mtime, modified)).tagName == version
  {
    DefaultOutputInExamples(version);
    VersionFileStem(version);
    TagOfPrefixed(version);
  }

  /** A release file's stem starts with the prefix, so never with `#`. */
  lemma StemStartsWithPrefix(name: string)
    requires IsReleaseFile(name)
    ensures |Stem(name)| >= |ReleasePrefix| && Stem(name)[0] == 'r'
  {
    assert name[0] == ReleasePrefix[0];
  }

  /** Content with no non-blank line is titled by the stem, unchanged when it does not start with `#`. */
  lemma BlankContentTitle(content: string, stem: string)
    requires StrippedLines(SplitLines(content)) == []
    requires stem != [] && stem[0] != '#'
    ensures Title(content, stem) == stem
  {
  }

  /** A file with no non-blank line is named after its whole stem, prefix included, not after its tag. */
  lemma BlankFileNamedByStem(f: ExampleFile)
    requires IsReleaseFile(f.name)
    requires forall l :: l in SplitLines(f.content) ==> Strip(l) == []
    ensures ReadReleaseFile(f).name == Stem(f.name)
  {
    BlankLinesDropped(SplitLines(f.content));
    StemStartsWithPrefix(f.name);
    BlankContentTitle(f.content, Stem(f.name));
  }

  lemma {:induction false} BlankLinesDropped(lines: seq<string>)
    requires forall l :: l in lines ==> Strip(l) == []
    ensures StrippedLines(lines) == []
  {
    if lines != [] {
      assert lines[|lines| - 1] in lines;
      BlankLinesDropped(lines[..|lines| - 1]);
    }
  }

  /** `list_releases` and `_get_release_list`: a record per release file, newest first. */
  function ListReleases(dir: seq<ExampleFile>): (rs: seq<ReleaseRecord>)
    ensures |rs| == |Listing(dir)|
    ensures forall i :: 0 <= i < |rs| ==> rs[i].path == ExamplesDir + Listing(dir)[i].name
  {
    var fs := Listing(dir);
    seq(|fs|, i requires 0 <= i < |fs| => ReadReleaseFile(fs[i]))
  }

  // ---------------------------------------------------------------- one release

  /** The first file satisfying the test, in the folder's order. */
  function FirstMatch(fs: seq<ExampleFile>, p: ExampleFile -> bool): (r: Option<ExampleFile>)
    ensures r.Some? ==> r.value in fs && p(r.value)
    ensures r.None? <==> forall f :: f in fs ==> !p(f)
    ensures r.Some? ==> exists i :: 0 <= i < |fs| && fs[i] == r.value && forall j :: 0 <= j < i ==> !p(fs[j])
  {
    if fs == [] then None
    else if p(fs[0]) then Some(fs[0])
    else
      var rest := FirstMatch(fs[1..], p);
      if rest.Some? then
        var i :| 0 <= i < |fs[1..]| && fs[1..][i] == rest.value && forall j :: 0 <= j < i ==> !p(fs[1..][j]);
        assert fs[i + 1] == rest.value && forall j :: 0 <= j < i + 1 ==> !p(fs[j]);
        rest
      else rest
  }

  /** The file named `release_{tag}.md` exactly. */
  predicate ExactName(tag: string, f: ExampleFile) {
    f.name == ReleasePrefix + tag + NotesSuffix
  }

  /** A release file whose stem ends with the tag. */
  predicate StemEndsWith(tag: string, f: ExampleFile) {
    IsReleaseFile(f.name) && EndsWith(Stem(f.name), tag)
  }

  /** `fs[i]` is the first file of `fs` named `release_{tag}.md`. */
  predicate FirstExact(fs: seq<ExampleFile>, tag: string, i: int) {
    0 <= i < |fs| && ExactName(tag, fs[i]) && forall j :: 0 <= j < i ==> !ExactName(tag, fs[j])
  }

  /** `fs[i]` is the first file of `fs` that is a release file whose stem ends with the tag. */
  predicate FirstStemMatch(fs: seq<ExampleFile>, tag: string, i: int) {
    0 <= i < |fs| && StemEndsWith(tag, fs[i]) && forall j :: 0 <= j < i ==> !StemEndsWith(tag, fs[j])
  }

  /** The found release: its record and its whole content. */
  datatype FoundRelease = FoundRelease(release: ReleaseRecord, content: string)

  /**
   * The file `get_release` reads: the first file named `release_{tag}.md` exactly when
   * there is one, otherwise the first release file whose stem ends with the tag.
   */
  function ChosenFile(dir: seq<ExampleFile>, tag: string): (c: Option<ExampleFile>)
    ensures c.None? <==> forall f :: f in dir ==> !ExactName(tag, f) && !StemEndsWith(tag, f)
    ensures c.Some? ==> IsReleaseFile(c.value.name)
    ensures (exists f :: f in dir && ExactName(tag, f)) ==> exists i :: FirstExact(dir, tag, i) && c == Some(dir[i])
    ensures (forall f :: f in dir ==> !ExactName(tag, f)) && c.Some? ==>
      exists i :: FirstStemMatch(ReleaseFiles(dir), tag, i) && c.value == ReleaseFiles(dir)[i]
  {
    var exact := FirstMatch(dir, f => ExactName(tag, f));
    if exact.Some? then
      var i :| 0 <= i < |dir| && dir[i] == exact.value && forall j :: 0 <= j < i ==> !(f => ExactName(tag, f))(dir[j]);
      assert forall j :: 0 <= j < i ==> !ExactName(tag, dir[j]);
      assert FirstExact(dir, tag, i) && dir[i] in dir;
      ExactNameIsReleaseFile(tag, exact.value.name);
      exact
    else
      var fs := ReleaseFiles(dir);
      var m := FirstMatch(fs, f => StemEndsWith(tag, f));
      if m.Some? then
        var i :| 0 <= i < |fs| && fs[i] == m.value && forall j :: 0 <= j < i ==> !(g => StemEndsWith(tag, g))(fs[j]);
        assert forall j :: 0 <= j < i ==> !StemEndsWith(tag, fs[j]);
        assert FirstStemMatch(fs, tag, i);
        m
      else m
  }

  /** `get_release`: the chosen file's record and its whole content; none is the 404. */
  function GetRelease(dir: seq<ExampleFile>, tag: string): (r: Option<FoundRelease>)
    ensures r.None? <==> forall f :: f in dir ==> !ExactName(tag, f) && !StemEndsWith(tag, f)
    ensures (exists f :: f in dir && ExactName(tag, f)) ==>
      exists i :: FirstExact(dir, tag, i) && r == Some(FoundRelease(ReadReleaseFile(dir[i]), dir[i].content))
    ensures (forall f :: f in dir ==> !ExactName(tag, f)) && r.Some? ==>
      exists i :: FirstStemMatch(ReleaseFiles(dir), tag, i) &&
        r.value == FoundRelease(ReadReleaseFile(ReleaseFiles(dir)[i]), ReleaseFiles(dir)[i].content)
  {
    match ChosenFile(dir, tag)
    case None => None
    case Some(f) => Some(FoundRelease(ReadReleaseFile(f), f.content))
  }

  /** A name of the form `release_{tag}.md` matches the glob. */
  lemma ExactNameIsReleaseFile(tag: string, name: string)
    ensures name == ReleasePrefix + tag + NotesSuffix ==> IsReleaseFile(name)
  {
    if name == ReleasePrefix + tag + NotesSuffix {
      assert name[..|ReleasePrefix|] == ReleasePrefix;
      assert name[|name| - |NotesSuffix|..] == NotesSuffix;
    }
  }

  /** An exact file wins over any file whose stem merely ends with the tag. */
  lemma ExactFileWins(dir: seq<ExampleFile>, tag: string, f: ExampleFile)
    requires f in dir && ExactName(tag, f)
    requires forall g :: g in dir && ExactName(tag, g) ==> g == f
    ensures GetRelease(dir, tag).Some?
    ensures GetRelease(dir, tag).value.content == f.content
    ensures GetRelease(dir, tag).value.release.path == ExamplesDir + f.name
  {
    ExactNameIsReleaseFile(tag, f.name);
  }

  /** With an empty tag and no file named `release_.md`, every stem matches, so the first release file is returned. */
  lemma EmptyTagPicksFirst(dir: seq<ExampleFile>)
    requires ReleaseFiles(dir) != []
    requires forall f :: f in dir ==> !ExactName("", f)
    ensures GetRelease(dir, "").Some?
    ensures GetRelease(dir, "").value.content == ReleaseFiles(dir)[0].content
  {
    var fs := ReleaseFiles(dir);
    assert fs[0] in fs;
    assert EndsWith(Stem(fs[0].name), "");
  }

  // ---------------------------------------------------------------- generate

  /** The version and repository the generate endpoint runs with, or the 400 message. */
  datatype GenerateArgs = GenerateArgs(version: Json, repo: Json, audience: Json, useGithub: bool, publishConfluence: bool)

  const MissingRepo := "Repository not specified. Use --repo or set in config.yaml"

  /**
   * The argument handling of `generate`: a falsy version becomes the timestamp tag
   * (`timestamp` is the clock's `v%Y.%m.%d-%H%M`), the repository falls back to the
   * config's, and a repository still falsy is the 400.
   */
  function GenerateArguments(body: map<string, Json>, configRepo: Json, timestamp: string): (r: Result<GenerateArgs, string>)
    ensures r.Err? <==> !Truthy(Field(body, "repo", JNull)) && !Truthy(configRepo)
    ensures r.Err? ==> r.error == MissingRepo
    ensures r.Ok? ==> Truthy(r.value.repo)
    ensures r.Ok? ==> r.value.version == if Truthy(Field(body, "version", JNull)) then body["version"] else JStr(timestamp)
    ensures r.Ok? ==> r.value.useGithub == Truthy(Field(body, "use_github", JBool(true)))
  {
    var given := Field(body, "version", JNull);
    var version := if Truthy(given) then given else JStr(timestamp);
    var repo := if Truthy(Field(body, "repo", JNull)) then body["repo"] else configRepo;
    if !Truthy(repo) then Err(MissingRepo)
    else Ok(GenerateArgs(version, repo, Field(body, "audience", JStr("users")),
                         Truthy(Field(body, "use_github", JBool(true))),
                         Truthy(Field(body, "publish_confluence", JBool(false)))))
  }

  // ---------------------------------------------------------------- the wiki link in the output

  /** `https?://[^\s]+` at the start of `s`: the longest such URL. */
  function UrlAt(s: string): (r: Option<string>)
    ensures r.Some? ==> StartsWith(s, r.value) && |r.value| > 0
    ensures r.Some? ==> StartsWith(r.value, "http") && forall i :: 0 <= i < |r.value| ==> !IsSpace(r.value[i])
  {
    var scheme := if StartsWith(s, "https://") then 8 else if StartsWith(s, "http://") then 7 else 0;
    if scheme == 0 then None
    else
      var n := scheme + LeadingBy(s[scheme..], c => !IsSpace(c));
      if n == scheme then None
      else
        assert forall i :: 0 <= i < n ==> !IsSpace(s[i]) by {
          forall i | 0 <= i < n ensures !IsSpace(s[i]) {
            if i >= scheme {
              assert s[scheme..][i - scheme] == s[i];
            }
          }
        }
        assert s[..n][..4] == "http";
        Some(s[..n])
  }

  /** `marker\s*https?://[^\s]+` at the start of `s`. */
  function LabelledUrlAt(s: string, marker: string): Option<string> {
    if !StartsWith(s, marker) then None
    else
      var rest := s[|marker|..];
      UrlAt(rest[LeadingBy(rest, IsSpace)..])
  }

  /** `re.search`: the match at the leftmost position where there is one. */
  function SearchLabelled(line: string, marker: string): (r: Option<string>)
    decreases |line|
  {
    match LabelledUrlAt(line, marker)
    case Some(u) => Some(u)
    case None => if line == [] then None else SearchLabelled(line[1..], marker)
  }

  function SearchUrl(line: string): (r: Option<string>)
    ensures r.Some? ==> StartsWith(r.value, "http") && forall i :: 0 <= i < |r.value| ==> !IsSpace(r.value[i])
    decreases |line|
  {
    match UrlAt(line)
    case Some(u) => Some(u)
    case None => if line == [] then None else SearchUrl(line[1..])
  }

  const PublishedLabel := "Published to Confluence:"
  const PageLabel := "Confluence page:"
  const WikiWord := "Confluence"

  /** The three patterns, tried in order on one line. */
  function LineUrl(line: string): Option<string> {
    match SearchLabelled(line, PublishedLabel)
    case Some(u) => Some(u)
    case None =>
      (match SearchLabelled(line, PageLabel)
       case Some(u) => Some(u)
       case None => if Contains(line, WikiWord) then SearchUrl(line) else None)
  }

  /** The first answer `f` gives along `xs`, if any. */
  function FirstFound<T, U>(xs: seq<T>, f: T -> Option<U>): Option<U> {
    if xs == [] then None
    else if f(xs[0]).Some? then f(xs[0])
    else FirstFound(xs[1..], f)
  }

  /** The link of the first line that yields one. */
  function FirstLineUrl(lines: seq<string>): Option<string> {
    FirstFound(lines, LineUrl)
  }

  /** The extraction loop over the output's lines, stopping at the first link. */
  method ExtractConfluenceUrl(stdout: string) returns (url: Option<string>)
    ensures url == FirstLineUrl(Split(stdout, '\n'))
  {
    var lines := Split(stdout, '\n');
    var i := 0;
    url := None;
    while i < |lines|
      invariant 0 <= i <= |lines|
      invariant FirstLineUrl(lines) == FirstLineUrl(lines[i..])
    {
      var found := LineUrl(lines[i]);
      if found.Some? {
        url := found;
        break;
      }
      assert lines[i..][1..] == lines[i + 1..];
      i := i + 1;
    }
  }

  /** The answer comes from some element, and no earlier element has one. */
  lemma {:induction false} FirstFoundIsFirst<T, U>(xs: seq<T>, f: T -> Option<U>)
    ensures FirstFound(xs, f).Some? <==> exists k :: 0 <= k < |xs| && f(xs[k]).Some?
    ensures FirstFound(xs, f).Some? ==>
      exists k :: 0 <= k < |xs| && FirstFound(xs, f) == f(xs[k]) && (forall j :: 0 <= j < k ==> f(xs[j]).None?)
  {
    if xs != [] && f(xs[0]).None? {
      var tail := xs[1..];
      FirstFoundIsFirst(tail, f);
      if exists k :: 0 <= k < |xs| && f(xs[k]).Some? {
        var k :| 0 <= k < |xs| && f(xs[k]).Some?;
        assert k > 0 && tail[k - 1] == xs[k];
      }
      if FirstFound(xs, f).Some? {
        var k :| 0 <= k < |tail| && FirstFound(tail, f) == f(tail[k]) && (forall j :: 0 <= j < k ==> f(tail[j]).None?);
        assert tail[k] == xs[k + 1];
        forall j | 0 <= j < k + 1 ensures f(xs[j]).None? {
          if j > 0 {
            assert tail[j - 1] == xs[j];
          }
        }
      }
    }
  }

  /** A URL up to the next blank is read whole. */
  lemma UrlAtReadsWholeUrl(rest: string, tail: string)
    requires rest != [] && forall i :: 0 <= i < |rest| ==> !IsSpace(rest[i])
    requires tail == [] || IsSpace(tail[0])
    ensures UrlAt("https://" + rest + tail) == Some("https://" + rest)
  {
    var s := "https://" + rest + tail;
    assert s[..8] == "https://";
    assert s[8..] == rest + tail;
    NonSpaceRun(rest, tail);
    assert s[..8 + |rest|] == "https://" + rest;
  }

  lemma {:induction false} NonSpaceRun(run: string, tail: string)
    requires forall i :: 0 <= i < |run| ==> !IsSpace(run[i])
    requires tail == [] || IsSpace(tail[0])
    ensures LeadingBy(run + tail, c => !IsSpace(c)) == |run|
  {
    if run != [] {
      assert (run + tail)[1..] == run[1..] + tail;
      NonSpaceRun(run[1..], tail);
    }
  }

  /** The generator's "Published to Confluence: <url>" line yields that URL. */
  lemma PublishedLineYieldsUrl(rest: string)
    requires rest != [] && forall i :: 0 <= i < |rest| ==> !IsSpace(rest[i])
    ensures LineUrl(PublishedLabel + " https://" + rest) == Some("https://" + rest)
  {
    var line := PublishedLabel + " https://" + rest;
    assert line[..|PublishedLabel|] == PublishedLabel;
    var after := line[|PublishedLabel|..];
    assert after == " " + ("https://" + rest);
    assert LeadingBy(after, IsSpace) == 1 by {
      assert after[1] == 'h';
    }
    assert after[1..] == "https://" + rest + "";
    UrlAtReadsWholeUrl(rest, "");
  }

  /** What the generate endpoint answers. */
  datatype GenerateReply =
    | BadRequest(message: string)
    | GenerationFailed(code: int, message: string)
    | Generated(version: Json, output: string, confluenceUrl: Option<string>, releases: seq<ReleaseRecord>)

  /** The generator run: its exit code and its two outputs. */
  datatype RunResult = RunResult(returncode: int, stdout: string, stderr: string)

  /**
   * `generate`, from the arguments to the answer. `run` is the generator's outcome and
   * `dir` the examples folder after it; a timeout or other exception is not modelled here.
   */
  function Generate(body: map<string, Json>, configRepo: Json, timestamp: string, run: RunResult, dir: seq<ExampleFile>): (r: GenerateReply)
    ensures GenerateArguments(body, configRepo, timestamp).Err? ==> r == BadRequest(MissingRepo)
    ensures r.Generated? <==> GenerateArguments(body, configRepo, timestamp).Ok? && run.returncode == 0
    ensures GenerateArguments(body, configRepo, timestamp).Ok? && run.returncode == 0 ==>
      var args := GenerateArguments(body, configRepo, timestamp).value;
      && r.version == args.version
      && r.confluenceUrl == (if args.publishConfluence then FirstLineUrl(Split(run.stdout, '\n')) else None)
    ensures r.Generated? ==> run.returncode == 0 && r.releases == ListReleases(dir)
    ensures r.Generated? && r.confluenceUrl.Some? ==> Truthy(Field(body, "publish_confluence", JBool(false)))
    ensures r.Generated? ==> r.output == run.stdout
    ensures run.returncode != 0 && GenerateArguments(body, configRepo, timestamp).Ok? ==>
      r == GenerationFailed(run.returncode, if run.stderr != "" then run.stderr else "Generation failed")
  {
    match GenerateArguments(body, configRepo, timestamp)
    case Err(m) => BadRequest(m)
    case Ok(args) =>
      if run.returncode != 0 then GenerationFailed(run.returncode, if run.stderr != "" then run.stderr else "Generation failed")
      else
        var url := if args.publishConfluence then FirstLineUrl(Split(run.stdout, '\n')) else None;
        Generated(args.version, run.stdout, url, ListReleases(dir))
  }
}
