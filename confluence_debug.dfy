/**
 * The helpers behind the enhanced UI endpoints: suggesting the next version, listing the
 * versions known to the forge or to git, falling back between them, formatting model
 * names, listing OpenRouter models, and the wiki connection test's precondition.
 */
module EnhancedEndpoints {
  import opened Outcomes
  import opened Errors
  import opened Environment
  import opened Text
  import opened JsonValue
  import Paging
  import FallbackLlm
  import ApiEndpoints

  // ---------------------------------------------------------------- version numbers

  /** A parsed MAJOR.MINOR.PATCH. */
  datatype Triple = Triple(major: nat, minor: nat, patch: nat)

  /** Python's tuple `<` on two triples. */
  predicate Below(a: Triple, b: Triple) {
    || a.major < b.major
    || (a.major == b.major && a.minor < b.minor)
    || (a.major == b.major && a.minor == b.minor && a.patch < b.patch)
  }

  /** `(\d+)` at the start of `s`: the number and the text after it. */
  function Number(s: string): (r: Option<(nat, string)>)
    ensures r.Some? ==> |r.value.1| < |s|
  {
    var n := DigitRun(s);
    if n == 0 then None else Some((ParseNat(s[..n]), s[n..]))
  }

  /** `(\d+)\.` at the start of `s`. */
  function NumberDot(s: string): (r: Option<(nat, string)>) {
    match Number(s)
    case None => None
    case Some((n, rest)) => if rest != [] && rest[0] == '.' then Some((n, rest[1..])) else None
  }

  /** `^(\d+)\.(\d+)\.(\d+)` on an already stripped string. */
  function Numbers(s: string): Option<Triple> {
    match NumberDot(s)
    case None => None
    case Some((a, r1)) =>
      (match NumberDot(r1)
       case None => None
       case Some((b, r2)) =>
         (match Number(r2)
          case None => None
          case Some((c, _)) => Some(Triple(a, b, c))))
  }

  /** `re.match(r'^(\d+)\.(\d+)\.(\d+)', version.lstrip('v'))`; whatever follows the third number is ignored. */
  function ParseVersion(version: string): (t: Option<Triple>) {
    Numbers(LStripChars(version, {'v'}))
  }

  /** `f"v{major}.{minor}.{patch}"`. */
  function Render(t: Triple): string {
    "v" + NatToString(t.major) + "." + NatToString(t.minor) + "." + NatToString(t.patch)
  }

  /** A run of digits followed by a non-digit (or nothing) is exactly that run. */
  lemma {:induction false} DigitRunOf(d: string, rest: string)
    requires forall i :: 0 <= i < |d| ==> IsDigit(d[i])
    requires rest == [] || !IsDigit(rest[0])
    ensures DigitRun(d + rest) == |d|
  {
    if d != [] {
      assert (d + rest)[1..] == d[1..] + rest;
      DigitRunOf(d[1..], rest);
    }
  }

  /** A rendered number followed by a non-digit is read back as that number. */
  lemma NumberOf(n: nat, rest: string)
    requires rest == [] || !IsDigit(rest[0])
    ensures Number(NatToString(n) + rest) == Some((n, rest))
  {
    var d := NatToString(n);
    DigitRunOf(d, rest);
    assert (d + rest)[..|d|] == d;
    assert (d + rest)[|d|..] == rest;
    ParseNatToString(n);
  }

  /** A rendered number followed by a dot is read back as that number and what follows the dot. */
  lemma NumberDotOf(n: nat, rest: string)
    ensures NumberDot(NatToString(n) + ("." + rest)) == Some((n, rest))
  {
    NumberOf(n, "." + rest);
    assert ("." + rest)[1..] == rest;
  }

  /** Three rendered numbers separated by dots are read back, whatever non-digit text follows. */
  lemma NumbersOf(t: Triple, suffix: string)
    requires suffix == [] || !IsDigit(suffix[0])
    ensures Numbers(NatToString(t.major) + ("." + (NatToString(t.minor) + ("." + (NatToString(t.patch) + suffix)))))
      == Some(t)
  {
    var r2 := NatToString(t.patch) + suffix;
    var r1 := NatToString(t.minor) + ("." + r2);
    NumberDotOf(t.major, r1);
    NumberDotOf(t.minor, r2);
    NumberOf(t.patch, suffix);
  }

  /** lstrip('v') removes exactly one leading `v` in front of a digit. */
  lemma StripOneV(s: string)
    requires s != [] && IsDigit(s[0])
    ensures LStripChars("v" + s, {'v'}) == s
  {
    var v := "v" + s;
    assert v[1] == s[0];
    assert LeadingBy(v, c => c in {'v'}) == 1;
    assert v[1..] == s;
  }

  /** A rendered version parses back to its triple, whatever non-digit text follows it. */
  lemma RenderParses(t: Triple, suffix: string)
    requires suffix == [] || !IsDigit(suffix[0])
    ensures ParseVersion(Render(t) + suffix) == Some(t)
  {
    var s := NatToString(t.major) + ("." + (NatToString(t.minor) + ("." + (NatToString(t.patch) + suffix))));
    assert Render(t) + suffix == "v" + s;
    StripOneV(s);
    NumbersOf(t, suffix);
  }

  /** A rendered version parses back to its triple. */
  lemma RenderParsesAlone(t: Triple)
    ensures ParseVersion(Render(t)) == Some(t)
  {
    RenderParses(t, "");
    assert Render(t) + "" == Render(t);
  }

  /** A pre-release suffix after the three numbers is ignored. */
  lemma PrereleaseSuffixIgnored()
    ensures ParseVersion("v1.2.3-beta") == Some(Triple(1, 2, 3))
  {
    assert Render(Triple(1, 2, 3)) + "-beta" == "v1.2.3-beta";
    RenderParses(Triple(1, 2, 3), "-beta");
  }

  /** A name starting with anything but `v` or a digit (such as "release-1.0.0") is not a version. */
  lemma NoLeadingNumber(version: string)
    requires version != [] && version[0] != 'v' && !IsDigit(version[0])
    ensures ParseVersion(version) == None
  {
    assert LeadingBy(version, c => c in {'v'}) == 0;
    assert LStripChars(version, {'v'}) == version;
    assert DigitRun(version) == 0;
  }

  /** Two numbers are not enough. */
  lemma TwoNumbersIsNoVersion()
    ensures ParseVersion("1.2") == None
  {
    var s := "1.2";
    assert LeadingBy(s, c => c in {'v'}) == 0;
    NumberDotOf(1, "2");
    assert NatToString(1) + ("." + "2") == s;
    NumberOf(2, "");
    assert NatToString(2) + "" == "2";
  }

  /** The present values among the options, in order. */
  function Somes<T>(opts: seq<Option<T>>): (ts: seq<T>)
    ensures |ts| <= |opts|
  {
    if opts == [] then []
    else
      var last := opts[|opts| - 1];
      Somes(opts[..|opts| - 1]) + (if last.Some? then [last.value] else [])
  }

  /** A value is kept exactly when it is present among the options. */
  lemma {:induction false} SomesMembers<T>(opts: seq<Option<T>>, t: T)
    ensures t in Somes(opts) <==> Some(t) in opts
  {
    if opts != [] {
      var init := opts[..|opts| - 1];
      SomesMembers(init, t);
      assert opts == init + [opts[|opts| - 1]];
    }
  }

  /** Each version's parse, position by position. */
  function Parses(versions: seq<string>): (ps: seq<Option<Triple>>)
    ensures |ps| == |versions|
    ensures forall i :: 0 <= i < |versions| ==> ps[i] == ParseVersion(versions[i])
  {
    seq(|versions|, i requires 0 <= i < |versions| => ParseVersion(versions[i]))
  }

  /** The triples parsed from the versions, in order; unparsable entries are skipped. */
  function Parsed(versions: seq<string>): (ts: seq<Triple>) {
    Somes(Parses(versions))
  }

  /** A triple is parsed exactly when some entry parses to it. */
  lemma ParsedMembers(versions: seq<string>, t: Triple)
    ensures t in Parsed(versions) <==> exists i :: 0 <= i < |versions| && ParseVersion(versions[i]) == Some(t)
  {
    SomesMembers(Parses(versions), t);
  }

  /** Python's `max` over the parsed triples. */
  function MaxTriple(ts: seq<Triple>): (m: Triple)
    requires ts != []
    ensures m in ts
    ensures forall t :: t in ts ==> !Below(m, t)
  {
    if |ts| == 1 then ts[0]
    else
      var m := MaxTriple(ts[..|ts| - 1]);
      assert forall t :: t in ts ==> t in ts[..|ts| - 1] || t == ts[|ts| - 1];
      if Below(m, ts[|ts| - 1]) then ts[|ts| - 1] else m
  }

  const FirstVersion := "v1.0.0"

  /** `suggest_next_version`: the greatest parsed version with its patch number raised by one. */
  function NextVersion(versions: seq<string>): string {
    var ts := Parsed(versions);
    if ts == [] then FirstVersion
    else
      var m := MaxTriple(ts);
      Render(Triple(m.major, m.minor, m.patch + 1))
  }

  /** The parsing loop of `suggest_next_version`: the triples of the entries that parse, in order. */
  method ParseAll(versions: seq<string>) returns (numbers: seq<Triple>)
    ensures numbers == Parsed(versions)
  {
    var ps := Parses(versions);
    numbers := [];
    for i := 0 to |versions|
      invariant numbers == Somes(ps[..i])
    {
      assert ps[..i + 1][..i] == ps[..i];
      var t := ParseVersion(versions[i]);
      assert ps[i] == t;
      if t.Some? {
        numbers := numbers + [t.value];
      }
    }
    assert ps[..|versions|] == ps;
  }

  /** The suggestion, built up over the list the way the source's loop does. */
  method SuggestNextVersion(versions: seq<string>) returns (r: string)
    ensures r == NextVersion(versions)
  {
    if versions == [] {
      return FirstVersion;
    }
    var numbers := ParseAll(versions);
    if numbers == [] {
      return FirstVersion;
    }
    var latest := MaxTriple(numbers);
    r := Render(Triple(latest.major, latest.minor, latest.patch + 1));
  }

  /** With no parsable entry (in particular with none at all) the suggestion is v1.0.0. */
  lemma {:induction false} NoVersionSuggestsFirst(versions: seq<string>)
    requires forall i :: 0 <= i < |versions| ==> ParseVersion(versions[i]).None?
    ensures NextVersion(versions) == FirstVersion
  {
    if Parsed(versions) != [] {
      var t := Parsed(versions)[0];
      ParsedMembers(versions, t);
    }
  }

  /** The suggestion parses, and is strictly greater than every version it was derived from. */
  lemma NextVersionAbove(versions: seq<string>, i: int)
    requires 0 <= i < |versions| && ParseVersion(versions[i]).Some?
    ensures ParseVersion(NextVersion(versions)).Some?
    ensures Below(ParseVersion(versions[i]).value, ParseVersion(NextVersion(versions)).value)
  {
    var p := ParseVersion(versions[i]).value;
    ParsedMembers(versions, p);
    var m := MaxTriple(Parsed(versions));
    var n := Triple(m.major, m.minor, m.patch + 1);
    assert NextVersion(versions) == Render(n);
    RenderParsesAlone(n);
  }

  /** The suggestion raises the patch number of one of the parsed versions. */
  lemma NextVersionFromInput(versions: seq<string>)
    requires Parsed(versions) != []
    ensures exists i :: 0 <= i < |versions| && ParseVersion(versions[i]).Some? && NextVersion(versions) == Render(Triple(ParseVersion(versions[i]).value.major, ParseVersion(versions[i]).value.minor,
                                              ParseVersion(versions[i]).value.patch + 1))
  {
    var m := MaxTriple(Parsed(versions));
    ParsedMembers(versions, m);
  }

  // ---------------------------------------------------------------- model names

  /** The provider prefixes removed from a model name, each by an ordinary replace. */
  const PrefixRemovals: seq<(string, string)> :=
    [("openai/", ""), ("meta-llama/", ""), ("google/", ""), ("anthropic/", ""), ("microsoft/", "")]

  /** The fixed spellings applied after title-casing, in the table's order. */
  const NameFixes: seq<(string, string)> :=
    [("Gpt", "GPT"), ("Llama", "LLaMA"), ("Phi", "Phi"), ("Wizardlm", "WizardLM"), ("Gemma", "Gemma"), ("Claude", "Claude")]

  predicate Patterns(table: seq<(string, string)>) {
    forall i :: 0 <= i < |table| ==> table[i].0 != []
  }

  /** `s.replace(old, new)` for each row of the table in turn. */
  function ReplaceEach(s: string, table: seq<(string, string)>): string
    requires Patterns(table)
  {
    if table == [] then s
    else
      var last := table[|table| - 1];
      ReplaceAll(ReplaceEach(s, table[..|table| - 1]), last.0, last.1)
  }

  /** One more row of the table is one more replace. */
  lemma ReplaceEachStep(s: string, table: seq<(string, string)>, k: nat)
    requires Patterns(table) && k < |table|
    ensures ReplaceEach(s, table[..k + 1]) == ReplaceAll(ReplaceEach(s, table[..k]), table[k].0, table[k].1)
  {
    assert table[..k + 1][..k] == table[..k];
  }

  /** `re.sub(r'[-_]', ' ', s)`. */
  function Spaced(s: string): (r: string)
    ensures |r| == |s|
    ensures forall i :: 0 <= i < |s| ==> r[i] == if s[i] == '-' || s[i] == '_' then ' ' else s[i]
  {
    seq(|s|, i requires 0 <= i < |s| => if s[i] == '-' || s[i] == '_' then ' ' else s[i])
  }

  /** `format_model_name`: prefixes removed, separators made spaces, words title-cased, spellings fixed. */
  function DisplayName(name: string): string {
    ReplaceEach(Title(Spaced(ReplaceEach(name, PrefixRemovals))), NameFixes)
  }

  /** The name, rewritten step by step and then over the fix table. */
  method FormatModelName(name: string) returns (r: string)
    ensures r == DisplayName(name)
  {
    r := ReplaceAll(ReplaceAll(ReplaceAll(name, "openai/", ""), "meta-llama/", ""), "google/", "");
    r := ReplaceAll(ReplaceAll(r, "anthropic/", ""), "microsoft/", "");
    assert r == ReplaceEach(name, PrefixRemovals) by {
      ReplaceEachStep(name, PrefixRemovals, 0);
      ReplaceEachStep(name, PrefixRemovals, 1);
      ReplaceEachStep(name, PrefixRemovals, 2);
      ReplaceEachStep(name, PrefixRemovals, 3);
      ReplaceEachStep(name, PrefixRemovals, 4);
      assert PrefixRemovals[..5] == PrefixRemovals;
    }
    r := Title(Spaced(r));
    for i := 0 to |NameFixes|
      invariant r == ReplaceEach(Title(Spaced(ReplaceEach(name, PrefixRemovals))), NameFixes[..i])
    {
      ReplaceEachStep(Title(Spaced(ReplaceEach(name, PrefixRemovals))), NameFixes, i);
      r := ReplaceAll(r, NameFixes[i].0, NameFixes[i].1);
    }
    assert NameFixes[..|NameFixes|] == NameFixes;
  }

  /** replace() introduces a character only through the replacement text. */
  lemma {:induction false} ReplaceKeepsOut(s: string, pat: string, rep: string, c: char)
    requires pat != [] && c !in s && c !in rep
    ensures c !in ReplaceAll(s, pat, rep)
    decreases |s|
  {
    if |s| >= |pat| {
      if s[..|pat|] == pat {
        ReplaceKeepsOut(s[|pat|..], pat, rep, c);
      } else {
        ReplaceKeepsOut(s[1..], pat, rep, c);
      }
    }
  }

  lemma {:induction false} ReplaceEachKeepsOut(s: string, table: seq<(string, string)>, c: char)
    requires Patterns(table) && c !in s
    requires forall i :: 0 <= i < |table| ==> c !in table[i].1
    ensures c !in ReplaceEach(s, table)
  {
    if table != [] {
      ReplaceEachKeepsOut(s, table[..|table| - 1], c);
      ReplaceKeepsOut(ReplaceEach(s, table[..|table| - 1]), table[|table| - 1].0, table[|table| - 1].1, c);
    }
  }

  /** title() changes only letters, into letters. */
  lemma {:induction false} TitleKeepsOut(s: string, prevCased: bool, c: char)
    requires !IsCased(c) && c !in s
    ensures c !in TitleAfter(s, prevCased)
    decreases |s|
  {
    if s != [] {
      TitleKeepsOut(s[1..], IsCased(s[0]), c);
    }
  }

  /** A separator removed by the spacing step never comes back. */
  lemma DisplayNameLacks(name: string, c: char)
    requires c == '-' || c == '_'
    ensures c !in DisplayName(name)
  {
    var spaced := Spaced(ReplaceEach(name, PrefixRemovals));
    TitleKeepsOut(spaced, false, c);
    ReplaceEachKeepsOut(Title(spaced), NameFixes, c);
  }

  // ---------------------------------------------------------------- version lists

  /** One entry of a version list. */
  datatype Version =
    | ReleaseVersion(tag: string, name: Json, publishedAt: Json)   // a forge release
    | TagVersion(tag: string)                                      // a forge tag; its name is the tag
    | LocalTag(tag: string, createdAt: string)                     // a local git tag
    | SuggestedVersion(tag: string)                                // a default suggestion

  /** A forge release with the fields the list reads. */
  datatype GhRelease = GhRelease(tagName: string, name: Json, publishedAt: Json)

  /** A version list with its suggested next version. */
  datatype VersionList = VersionList(versions: seq<Version>, suggested: string)

  const EmptyList := VersionList([], FirstVersion)

  /** A release's entry: its name, or its tag when the name is empty. */
  function ReleaseEntry(r: GhRelease): Version {
    ReleaseVersion(r.tagName, if Truthy(r.name) then r.name else JStr(r.tagName), r.publishedAt)
  }

  function Tags(vs: seq<Version>): (ts: seq<string>)
    ensures |ts| == |vs| && forall i :: 0 <= i < |vs| ==> ts[i] == vs[i].tag
  {
    seq(|vs|, i requires 0 <= i < |vs| => vs[i].tag)
  }

  /** The tags not already listed, in order (duplicates among the tags themselves are kept). */
  function NewTags(tags: seq<string>, existing: set<string>): (vs: seq<Version>)
    ensures |vs| <= |tags|
    ensures forall v :: v in vs ==> v.TagVersion? && v.tag in tags && v.tag !in existing
  {
    if tags == [] then []
    else
      var last := tags[|tags| - 1];
      NewTags(tags[..|tags| - 1], existing) + (if last in existing then [] else [TagVersion(last)])
  }

  /** The entries of the releases, in order. */
  function ReleaseEntries(rs: seq<GhRelease>): (vs: seq<Version>)
    ensures |vs| == |rs| && forall i :: 0 <= i < |rs| ==> vs[i] == ReleaseEntry(rs[i])
  {
    seq(|rs|, i requires 0 <= i < |rs| => ReleaseEntry(rs[i]))
  }

  /** `{v['tag'] for v in versions}` over the release entries. */
  function ReleaseTags(rs: seq<GhRelease>): set<string> {
    set r | r in rs :: r.tagName
  }

  /** The first ten releases, then the first fifteen tags that are not release tags when the tag request answered 200. */
  function ForgeList(releases: seq<GhRelease>, tags: Paging.Reply<seq<string>>): seq<Version> {
    var rs := SliceTo(releases, 10);
    ReleaseEntries(rs) + (if tags.status == 200 then NewTags(SliceTo(tags.body, 15), ReleaseTags(rs)) else [])
  }

  /**
   * `get_github_versions`. `releases` is the outcome of the release request with its
   * decoding and field reads; `tags` the tag request's. Any exception gives the empty
   * list with v1.0.0.
   */
  function GithubVersions(releases: Result<seq<GhRelease>, Error>, tags: Result<Paging.Reply<seq<string>>, Error>): VersionList {
    if releases.Err? || tags.Err? then EmptyList
    else
      var vs := ForgeList(releases.value, tags.value);
      VersionList(vs, NextVersion(Tags(vs)))
  }

  /** The forge list: releases first, in order, then at most fifteen tags that are not release tags. */
  lemma ForgeListShape(releases: seq<GhRelease>, tags: Paging.Reply<seq<string>>)
    ensures var vs := ForgeList(releases, tags);
      var n := |SliceTo(releases, 10)|;
      && n <= |vs| <= n + 15
      && (forall i :: 0 <= i < n ==> vs[i] == ReleaseEntry(releases[i]))
      && (forall i, j :: 0 <= i < n <= j < |vs| ==> vs[j].TagVersion? && vs[j].tag != vs[i].tag)
      && (tags.status != 200 ==> |vs| == n)
  {
    var rs := SliceTo(releases, 10);
    var vs := ForgeList(releases, tags);
    if tags.status == 200 {
      var nt := NewTags(SliceTo(tags.body, 15), ReleaseTags(rs));
      assert vs == ReleaseEntries(rs) + nt;
      forall i, j | 0 <= i < |rs| <= j < |vs|
        ensures vs[j].TagVersion? && vs[j].tag != vs[i].tag
      {
        assert vs[j] == nt[j - |rs|] && nt[j - |rs|] in nt;
        assert vs[i].tag == rs[i].tagName && rs[i] in rs;
      }
    }
  }

  /** The first loop of `get_github_versions`: an entry per release, in order. */
  method CollectReleases(rs: seq<GhRelease>) returns (versions: seq<Version>)
    ensures versions == ReleaseEntries(rs)
  {
    versions := [];
    for i := 0 to |rs|
      invariant versions == ReleaseEntries(rs)[..i]
    {
      versions := versions + [ReleaseEntry(rs[i])];
    }
  }

  /** The second loop of `get_github_versions`: an entry per tag not already listed. */
  method CollectNewTags(ts: seq<string>, existing: set<string>) returns (added: seq<Version>)
    ensures added == NewTags(ts, existing)
  {
    added := [];
    for j := 0 to |ts|
      invariant added == NewTags(ts[..j], existing)
    {
      assert ts[..j + 1][..j] == ts[..j];
      if ts[j] !in existing {
        added := added + [TagVersion(ts[j])];
      }
    }
    assert ts[..|ts|] == ts;
  }

  /** The forge list built up in the two loops of the source. */
  method GetGithubVersions(releases: Result<seq<GhRelease>, Error>, tags: Result<Paging.Reply<seq<string>>, Error>)
    returns (r: VersionList)
    ensures r == GithubVersions(releases, tags)
  {
    if releases.Err? {
      return EmptyList;
    }
    var rs := SliceTo(releases.value, 10);
    var versions := CollectReleases(rs);
    if tags.Err? {
      return EmptyList;
    }
    if tags.value.status == 200 {
      var added := CollectNewTags(SliceTo(tags.value.body, 15), ReleaseTags(rs));
      versions := versions + added;
    }
    var suggested := SuggestNextVersion(Tags(versions));
    r := VersionList(versions, suggested);
  }

  /** The outcome of `git tag --sort=-version:refname`. */
  datatype GitRun = GitRun(returncode: int, stdout: string)

  /** The lines that are not blank, kept as they are. */
  function NonBlank(lines: seq<string>): (ls: seq<string>)
    ensures forall l :: l in ls ==> l in lines && Strip(l) != []
    ensures |ls| <= |lines|
  {
    if lines == [] then []
    else
      var last := lines[|lines| - 1];
      NonBlank(lines[..|lines| - 1]) + (if Strip(last) != [] then [last] else [])
  }

  /** The first ten non-blank lines of git's output. */
  function TagLines(stdout: string): (tags: seq<string>)
    ensures |tags| <= 10 && forall t :: t in tags ==> Strip(t) != []
  {
    var lines := NonBlank(Split(Strip(stdout), '\n'));
    var tags := SliceTo(lines, 10);
    assert forall t :: t in tags ==> t in lines;
    tags
  }

  /** Each tag with its date, or "" when its lookup failed. */
  function Dated(tags: seq<string>, dates: map<string, string>): (vs: seq<Version>)
    ensures |vs| == |tags| && forall i :: 0 <= i < |tags| ==> vs[i] == LocalTag(tags[i], if tags[i] in dates then dates[tags[i]] else "")
  {
    seq(|tags|, i requires 0 <= i < |tags| => LocalTag(tags[i], if tags[i] in dates then dates[tags[i]] else ""))
  }

  /**
   * `get_local_versions`: the first ten non-blank tag lines, each with the date `git log`
   * gave for it (`dates` holds the stripped output for the tags whose lookup succeeded).
   * When git cannot be started the list is empty with v1.0.0.
   */
  function LocalVersions(git: Result<GitRun, Error>, dates: map<string, string>): VersionList {
    if git.Err? then EmptyList
    else if git.value.returncode != 0 then VersionList([], NextVersion([]))
    else
      var tags := TagLines(git.value.stdout);
      VersionList(Dated(tags, dates), NextVersion(tags))
  }

  /** The tag loop: each tag with its date. */
  method DateTags(tags: seq<string>, dates: map<string, string>) returns (versions: seq<Version>)
    ensures versions == Dated(tags, dates)
  {
    versions := [];
    for i := 0 to |tags|
      invariant versions == Dated(tags, dates)[..i]
    {
      var date := if tags[i] in dates then dates[tags[i]] else "";
      versions := versions + [LocalTag(tags[i], date)];
    }
  }

  /** The local list. */
  method GetLocalVersions(git: Result<GitRun, Error>, dates: map<string, string>) returns (r: VersionList)
    ensures r == LocalVersions(git, dates)
  {
    if git.Err? {
      return EmptyList;
    }
    var versions: seq<Version> := [];
    var tags: seq<string> := [];
    if git.value.returncode == 0 {
      tags := TagLines(git.value.stdout);
      versions := DateTags(tags, dates);
    }
    var suggested := SuggestNextVersion(tags);
    r := VersionList(versions, suggested);
  }

  /** Dating keeps the tags and their order. */
  lemma DatedShape(tags: seq<string>, dates: map<string, string>)
    requires forall t :: t in tags ==> Strip(t) != []
    ensures Tags(Dated(tags, dates)) == tags
    ensures forall v :: v in Dated(tags, dates) ==> v.LocalTag? && Strip(v.tag) != []
  {
    var vs := Dated(tags, dates);
    forall v | v in vs ensures v.LocalTag? && Strip(v.tag) != [] {
      var i :| 0 <= i < |vs| && vs[i] == v;
      assert tags[i] in tags;
    }
  }

  /** At most ten local tags, none blank, with the suggestion taken from those tags. */
  lemma LocalVersionsShape(git: Result<GitRun, Error>, dates: map<string, string>)
    ensures var r := LocalVersions(git, dates);
      && |r.versions| <= 10
      && (forall v :: v in r.versions ==> v.LocalTag? && Strip(v.tag) != [])
      && r.suggested == NextVersion(Tags(r.versions))
  {
    var r := LocalVersions(git, dates);
    if git.Ok? && git.value.returncode == 0 {
      DatedShape(TagLines(git.value.stdout), dates);
    } else {
      assert Tags(r.versions) == [];
    }
  }

  // ---------------------------------------------------------------- version fallback

  const DefaultVersions: seq<Version> := [SuggestedVersion("v1.0.0"), SuggestedVersion("v0.1.0")]

  /** The versions endpoint's answer. */
  datatype VersionsReply = VersionsReply(versions: seq<Version>, suggested: string, source: string)

  /** The forge is asked only with a token and a repository. */
  predicate UsesForge(repo: Json, token: Option<string>) {
    Given(token) && Truthy(repo)
  }

  /**
   * `get_available_versions`: the forge's list when it is asked and has entries, else the
   * local list, else the two defaults. `github` and `local` are what the two helpers
   * return (they catch every exception themselves). The source is named after whether
   * the forge was asked, not after where the list came from.
   */
  function AvailableVersions(repo: Json, token: Option<string>, github: VersionList, local: VersionList): (r: VersionsReply)
    ensures r.versions != []
    ensures r.source == if UsesForge(repo, token) then "github" else "local"
  {
    var forge := if UsesForge(repo, token) then github.versions else [];
    var source := if UsesForge(repo, token) then "github" else "local";
    if forge != [] then VersionsReply(forge, github.suggested, source)
    else if local.versions != [] then VersionsReply(local.versions, local.suggested, source)
    else VersionsReply(DefaultVersions, FirstVersion, source)
  }

  /** The forge's list wins when it is asked and answers; otherwise local tags, then the defaults. */
  lemma VersionFallbackOrder(repo: Json, token: Option<string>, github: VersionList, local: VersionList)
    ensures UsesForge(repo, token) && github.versions != [] ==>
      AvailableVersions(repo, token, github, local) == VersionsReply(github.versions, github.suggested, "github")
    ensures !(UsesForge(repo, token) && github.versions != []) && local.versions != [] ==>
      AvailableVersions(repo, token, github, local).versions == local.versions
      && AvailableVersions(repo, token, github, local).suggested == local.suggested
    ensures !(UsesForge(repo, token) && github.versions != []) && local.versions == [] ==>
      AvailableVersions(repo, token, github, local).versions == DefaultVersions
      && AvailableVersions(repo, token, github, local).suggested == FirstVersion
  {
  }

  /** A failed forge request falls through to git, and the answer still names the forge as its source. */
  lemma ForgeFailureReportsForge(repo: Json, token: Option<string>, e: Error,
                                 tags: Result<Paging.Reply<seq<string>>, Error>,
                                 git: Result<GitRun, Error>, dates: map<string, string>)
    requires UsesForge(repo, token)
    requires LocalVersions(git, dates).versions != []
    ensures var r := AvailableVersions(repo, token, GithubVersions(Err(e), tags), LocalVersions(git, dates));
      r.versions == LocalVersions(git, dates).versions && r.source == "github"
  {
  }

  // ---------------------------------------------------------------- OpenRouter models

  /** One entry of the model list. */
  datatype ModelEntry =
    | Offered(id: string, name: string, pricing: string)                       // a fixed entry
    | Listed(modelId: Json, name: string, pricing: string, contextLength: Json) // a model from the listing
    | Fallback(option: FallbackLlm.ModelOption)                                // from the fallback list

  const TemplateEntry := Offered("template-basic", "Template-Based (No AI)", "FREE")

  /** The three free models offered when the listing yields none. */
  const FixedFreeModels: seq<ModelEntry> := [
    Offered("meta-llama/llama-3.1-8b-instruct:free", "LLaMA 3.1 8B", "Free"),
    Offered("minimax/minimax-m2:free", "MiniMax M2", "Free"),
    Offered("google/gemma-2-9b-it:free", "Gemma 2 9B", "Free")]

  const FreeModelIds: seq<string> := [
    "meta-llama/llama-3.1-8b-instruct:free", "google/gemma-2-9b-it:free",
    "microsoft/phi-3-mini-128k-instruct:free", "huggingfaceh4/zephyr-7b-beta:free",
    "qwen/qwen-2-7b-instruct:free", "minimax/minimax-m2:free",
    "nousresearch/nous-capybara-7b:free", "openchat/openchat-7b:free"]

  const PremiumModelIds: seq<string> := [
    "openai/gpt-4o", "anthropic/claude-3.5-sonnet", "google/gemini-pro-1.5",
    "meta-llama/llama-3.1-70b-instruct", "microsoft/wizardlm-2-8x22b"]

  const FreeMarker := ":free"
  const UnknownLength := JStr("Unknown")

  /** Python's `x == 0` on a decoded value: the integer zero and False. */
  predicate IsZero(j: Json) {
    j == JInt(0) || j == JBool(false)
  }

  /** `model_info.get('id', '')`. */
  function IdOf(m: map<string, Json>): Json {
    Field(m, "id", JStr(""))
  }

  /**
   * `model_id in free_models or ':free' in model_id`: list membership never raises; the
   * second test is a substring test on a string, an element test on a list, a key test on
   * a dict, and raises TypeError on null, a number or a boolean.
   */
  function FreeById(id: Json): (r: Result<bool, Error>)
    ensures r.Err? <==> id.JNull? || id.JBool? || id.JInt?
    ensures id.JStr? ==> r == Ok(id.s in FreeModelIds || Contains(id.s, FreeMarker))
    ensures id.JArr? ==> r == Ok(JStr(FreeMarker) in id.items)
    ensures id.JObj? ==> r == Ok(FreeMarker in id.fields)
  {
    match id
    case JStr(s) => Ok(s in FreeModelIds || Contains(s, FreeMarker))
    case JArr(xs) => Ok(JStr(FreeMarker) in xs)
    case JObj(fs) => Ok(FreeMarker in fs)
    case _ => Err(TypeError("argument of type is not iterable"))
  }

  /**
   * The `is_free` test, evaluated left to right: a listed free id, ":free" in the id, a
   * prompt price equal to zero (an absent price counts as zero), "free" in the name (the
   * id when there is no name).
   */
  function IsFree(info: Json): (r: Result<bool, Error>)
    ensures r.Ok? ==> info.JObj? && FreeById(IdOf(info.fields)).Ok?
    ensures info.JObj? && FreeById(IdOf(info.fields)) == Ok(true) ==> r == Ok(true)
    ensures info.JObj? && FreeById(IdOf(info.fields)) == Ok(false) && "pricing" !in info.fields ==> r == Ok(true)
  {
    match info
    case JObj(m) =>
      var id := IdOf(m);
      var name := Field(m, "name", id);
      (match FreeById(id)
       case Err(e) => Err(e)
       case Ok(true) => Ok(true)
       case Ok(false) =>
         var pricing := Field(m, "pricing", JObj(map[]));
         if !pricing.JObj? then Err(AttributeError("object has no attribute 'get'"))
         else if IsZero(Field(pricing.fields, "prompt", JInt(0))) then Ok(true)
         else if !name.JStr? then Err(AttributeError("object has no attribute 'lower'"))
         else Ok(Contains(Lower(name.s), "free")))
    case _ => Err(AttributeError("object has no attribute 'get'"))
  }

  /** A listed model with no pricing at all counts as free. */
  lemma UnpricedModelIsFree(m: map<string, Json>, id: string)
    requires "id" in m && m["id"] == JStr(id) && "pricing" !in m
    ensures IsFree(JObj(m)) == Ok(true)
  {
  }

  /** A prompt price given as the string "0" is not a zero price; only the name can still make the model free. */
  lemma StringZeroPriceIsNotZero(m: map<string, Json>, id: string, name: string)
    requires "id" in m && m["id"] == JStr(id) && "name" in m && m["name"] == JStr(name)
    requires "pricing" in m && m["pricing"] == JObj(map["prompt" := JStr("0")])
    requires id !in FreeModelIds && !Contains(id, FreeMarker)
    ensures IsFree(JObj(m)) == Ok(Contains(Lower(name), "free"))
  {
  }

  /** A free model's entry: the id, the formatted name (the id when there is none), "Free" and the context length. */
  function FreeEntry(info: Json): (r: Result<Option<ModelEntry>, Error>)
    ensures r.Ok? && r.value.Some? ==> r.value.value.Listed? && r.value.value.pricing == "Free"
    ensures r.Ok? ==> (r.value.Some? <==> IsFree(info) == Ok(true))
  {
    match IsFree(info)
    case Err(e) => Err(e)
    case Ok(free) =>
      if !free then Ok(None)
      else
        var m := info.fields;
        var name := Field(m, "name", IdOf(m));
        if !name.JStr? then Err(AttributeError("object has no attribute 'replace'"))
        else Ok(Some(Listed(IdOf(m), DisplayName(name.s), "Free", Field(m, "context_length", UnknownLength))))
  }

  /** The free models of the listing, in order; the first failing entry ends the listing. */
  function FreeEntries(models: seq<Json>): (r: Result<seq<ModelEntry>, Error>)
    ensures r.Ok? ==> |r.value| <= |models|
    ensures r.Ok? ==> forall e :: e in r.value ==> e.Listed? && e.pricing == "Free"
    ensures r.Ok? ==> forall i :: 0 <= i < |models| ==> models[i].JObj?
  {
    if models == [] then Ok([])
    else
      var init := models[..|models| - 1];
      match FreeEntries(init)
      case Err(e) => Err(e)
      case Ok(es) =>
        (match FreeEntry(models[|models| - 1])
         case Err(e) => Err(e)
         case Ok(None) => Ok(es)
         case Ok(Some(entry)) => Ok(es + [entry]))
  }

  /** The free-model loop. */
  method CollectFreeModels(models: seq<Json>) returns (r: Result<seq<ModelEntry>, Error>)
    ensures r == FreeEntries(models)
  {
    var available: seq<ModelEntry> := [];
    for i := 0 to |models|
      invariant FreeEntries(models[..i]) == Ok(available)
    {
      assert models[..i + 1][..i] == models[..i];
      var free := IsFree(models[i]);
      if free.Err? {
        assert FreeEntries(models[..i + 1]) == Err(free.error);
        FirstErrorStays(models, i + 1, free.error);
        return Err(free.error);
      }
      if free.value {
        var m := models[i].fields;
        var name := Field(m, "name", IdOf(m));
        if !name.JStr? {
          assert FreeEntries(models[..i + 1]) == Err(AttributeError("object has no attribute 'replace'"));
          FirstErrorStays(models, i + 1, AttributeError("object has no attribute 'replace'"));
          return Err(AttributeError("object has no attribute 'replace'"));
        }
        var display := FormatModelName(name.s);
        available := available + [Listed(IdOf(m), display, "Free", Field(m, "context_length", UnknownLength))];
      }
    }
    assert models[..|models|] == models;
    r := Ok(available);
  }

  /** Once a prefix of the listing fails, the whole listing fails with the same error. */
  lemma {:induction false} FirstErrorStays(models: seq<Json>, k: nat, e: Error)
    requires k <= |models| && FreeEntries(models[..k]) == Err(e)
    ensures FreeEntries(models) == Err(e)
    decreases |models| - k
  {
    if k < |models| {
      assert models[..k + 1][..k] == models[..k];
      FirstErrorStays(models, k + 1, e);
    } else {
      assert models[..k] == models;
    }
  }

  /** `next((m for m in models if m.get('id') == id), None)`. */
  function FirstWithId(models: seq<Json>, id: string): (r: Result<Option<map<string, Json>>, Error>)
    ensures r.Ok? && r.value.Some? ==> "id" in r.value.value && r.value.value["id"] == JStr(id)
  {
    if models == [] then Ok(None)
    else if !models[0].JObj? then Err(AttributeError("object has no attribute 'get'"))
    else if Field(models[0].fields, "id", JNull) == JStr(id) then Ok(Some(models[0].fields))
    else FirstWithId(models[1..], id)
  }

  /** A premium model found in the listing, with its formatted name (the id when there is none). */
  function PremiumEntry(models: seq<Json>, id: string): (r: Result<Option<ModelEntry>, Error>)
    ensures r.Ok? && r.value.Some? ==> r.value.value.Listed? && r.value.value.modelId == JStr(id) && r.value.value.pricing == "Premium"
  {
    match FirstWithId(models, id)
    case Err(e) => Err(e)
    case Ok(None) => Ok(None)
    case Ok(Some(m)) =>
      var name := Field(m, "name", JStr(id));
      if !name.JStr? then Err(AttributeError("object has no attribute 'replace'"))
      else Ok(Some(Listed(JStr(id), DisplayName(name.s), "Premium", Field(m, "context_length", UnknownLength))))
  }

  /** The premium models present in the listing, in the premium list's order. */
  function PremiumEntries(models: seq<Json>, ids: seq<string>): (r: Result<seq<ModelEntry>, Error>)
    ensures r.Ok? ==> |r.value| <= |ids|
    ensures r.Ok? ==> forall e :: e in r.value ==> e.Listed? && e.pricing == "Premium" && e.modelId.JStr? && e.modelId.s in ids
  {
    if ids == [] then Ok([])
    else
      match PremiumEntries(models, ids[..|ids| - 1])
      case Err(e) => Err(e)
      case Ok(es) =>
        (match PremiumEntry(models, ids[|ids| - 1])
         case Err(e) => Err(e)
         case Ok(None) => Ok(es)
         case Ok(Some(entry)) => Ok(es + [entry]))
  }

  /** Iterating a decoded value: a list's items; an empty string or dict has none; anything else fails. */
  function Items(j: Json): Result<seq<Json>, Error> {
    match j
    case JArr(xs) => Ok(xs)
    case JObj(m) => if m == map[] then Ok([]) else Err(AttributeError("'str' object has no attribute 'get'"))
    case JStr(s) => if s == [] then Ok([]) else Err(AttributeError("'str' object has no attribute 'get'"))
    case _ => Err(TypeError("object is not iterable"))
  }

  /** The model endpoint's answer; `fallbackSource` marks the answers labelled as coming from the fallback. */
  datatype ModelsReply = ModelsReply(models: seq<ModelEntry>, fallbackSource: bool)

  function Fallbacks(options: seq<FallbackLlm.ModelOption>): (es: seq<ModelEntry>)
    ensures |es| == |options| && forall i :: 0 <= i < |options| ==> es[i] == Fallback(options[i])
  {
    seq(|options|, i requires 0 <= i < |options| => Fallback(options[i]))
  }

  /**
   * `get_openrouter_models`. `fetched` is the decoded listing, or the request's failure
   * (a failed status or undecodable body included); `fallback` is what
   * `get_fallback_models` returns. A listing of the wrong shape raises past the handler.
   */
  function OpenRouterModels(apiKey: Option<string>, fetched: Result<Json, Error>, fallback: seq<FallbackLlm.ModelOption>): (r: Result<ModelsReply, Error>)
    ensures r.Ok? ==> r.value.models != [] && r.value.models[0] == TemplateEntry
    ensures !Given(apiKey) || fetched.Err? ==> r == Ok(ModelsReply([TemplateEntry] + Fallbacks(fallback), true))
    ensures r.Err? ==> Given(apiKey) && fetched.Ok?
  {
    if !Given(apiKey) || fetched.Err? then Ok(ModelsReply([TemplateEntry] + Fallbacks(fallback), true))
    else
      var body := fetched.value;
      if !body.JObj? then Err(AttributeError("object has no attribute 'get'"))
      else
        match Items(Field(body.fields, "data", JArr([])))
        case Err(e) => Err(e)
        case Ok(models) =>
          (match FreeEntries(models)
           case Err(e) => Err(e)
           case Ok(free) =>
             (match PremiumEntries(models, PremiumModelIds)
              case Err(e) => Err(e)
              case Ok(premium) =>
                if free + premium != [] then Ok(ModelsReply([TemplateEntry] + free + premium, false))
                else Ok(ModelsReply([TemplateEntry] + FixedFreeModels + Fallbacks(fallback), false))))
  }

  /** A listing with models yields the template entry, then its free models, then its premium ones. */
  lemma ListingOrder(apiKey: Option<string>, body: map<string, Json>, models: seq<Json>, fallback: seq<FallbackLlm.ModelOption>)
    requires Given(apiKey) && "data" in body && body["data"] == JArr(models)
    requires FreeEntries(models).Ok? && PremiumEntries(models, PremiumModelIds).Ok?
    ensures var r := OpenRouterModels(apiKey, Ok(JObj(body)), fallback);
      var found := FreeEntries(models).value + PremiumEntries(models, PremiumModelIds).value;
      && r.Ok? && !r.value.fallbackSource
      && (found != [] ==> r.value.models == [TemplateEntry] + found)
      && (found == [] ==> r.value.models == [TemplateEntry] + FixedFreeModels + Fallbacks(fallback))
  {
  }

  // ---------------------------------------------------------------- wiki connection test

  const PlaceholderPrefix := "your_"

  /** The connection test refuses when a value is missing or any given value starts with "your_". */
  predicate ConnectionTestRefuses(env: Env) {
    var base, user, token := Getenv(env, "CONFLUENCE_BASE"), Getenv(env, "CONFLUENCE_USER"), Getenv(env, "CONFLUENCE_API_TOKEN");
    || !(Given(base) && Given(user) && Given(token))
    || (Given(base) && StartsWith(base.value, PlaceholderPrefix))
    || (Given(user) && StartsWith(user.value, PlaceholderPrefix))
    || (Given(token) && StartsWith(token.value, PlaceholderPrefix))
  }

  /**
   * The connection test and the config endpoint disagree on placeholders: the example
   * base URL and an example user pass the test although the config endpoint does not
   * count the wiki as configured.
   */
  lemma PlaceholderBasePassesTest(env: Env, rest: string)
    requires Getenv(env, "CONFLUENCE_BASE") == Some("https://yourcompany" + rest)
    requires Given(Getenv(env, "CONFLUENCE_USER")) && !StartsWith(Getenv(env, "CONFLUENCE_USER").value, PlaceholderPrefix)
    requires Given(Getenv(env, "CONFLUENCE_API_TOKEN")) && !StartsWith(Getenv(env, "CONFLUENCE_API_TOKEN").value, PlaceholderPrefix)
    ensures !ConnectionTestRefuses(env)
    ensures !ApiEndpoints.ConfluenceConfigured(env)
  {
    var base := "https://yourcompany" + rest;
    assert base[0] == 'h';
    assert base[..19] == "https://yourcompany";
  }
}
