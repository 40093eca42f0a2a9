/**
 * The pure parts of the generation service: choosing a provider from the model name,
 * splitting the model's markdown answer into sections, and preparing the commit, issue
 * and previous-release lists that go into the prompt, cut to audience-dependent limits.
 */
module LlmService {
  import opened Outcomes
  import opened Errors
  import opened Dicts
  import opened Text
  import opened JsonValue

  // ---------------------------------------------------------------- providers

  /** The keys of the service's provider table. */
  const Providers: seq<string> := ["openai", "openrouter", "anthropic", "local", "ollama", "template"]

  /** `detect_provider`: prefixes are tried in a fixed order, a `/` anywhere means the router. */
  function DetectProvider(model: string): (p: string)
    ensures p in Providers
  {
    if StartsWith(model, "gpt-") || StartsWith(model, "o1-") then "openai"
    else if StartsWith(model, "ollama/") then "ollama"
    else if StartsWith(model, "template-") then "template"
    else if '/' in model then "openrouter"
    else if StartsWith(model, "claude-") then "anthropic"
    else "local"
  }

  /** The provider a model name selects, each case after the earlier ones failed. */
  lemma ProviderOrder(model: string)
    ensures DetectProvider(model) == "openai" <==> StartsWith(model, "gpt-") || StartsWith(model, "o1-")
    ensures DetectProvider(model) == "ollama" <==>
              !(StartsWith(model, "gpt-") || StartsWith(model, "o1-")) && StartsWith(model, "ollama/")
    ensures DetectProvider(model) == "openrouter" <==>
              && !(StartsWith(model, "gpt-") || StartsWith(model, "o1-"))
              && !StartsWith(model, "ollama/") && !StartsWith(model, "template-") && '/' in model
    ensures DetectProvider(model) == "anthropic" <==>
              && !(StartsWith(model, "gpt-") || StartsWith(model, "o1-"))
              && !StartsWith(model, "ollama/") && !StartsWith(model, "template-")
              && '/' !in model && StartsWith(model, "claude-")
  {
  }

  /** A router-style name wins over the `claude-` prefix. */
  lemma SlashBeforeClaude(rest: string)
    requires '/' in rest
    ensures DetectProvider("claude-" + rest) == "openrouter"
  {
    var m := "claude-" + rest;
    assert m[0] == 'c';
    assert !StartsWith(m, "gpt-") && !StartsWith(m, "o1-") && !StartsWith(m, "ollama/") && !StartsWith(m, "template-") by {
      assert |m| >= 7 && m[..3][0] == 'c' && m[..4][0] == 'c' && m[..7][0] == 'c';
    }
    var i :| 0 <= i < |rest| && rest[i] == '/';
    assert m[7 + i] == '/';
  }

  /**
   * `call_llm`: the provider's function is called, or "Unsupported provider" raised for
   * a provider the table lacks. `dispatch` stands for the provider calls.
   */
  function CallLlm(model: string, dispatch: string -> Result<string, Error>): Result<string, Error> {
    var p := DetectProvider(model);
    if p !in Providers then Err(ValueError("Unsupported provider: " + p)) else dispatch(p)
  }

  /** The "Unsupported provider" error can never be raised: every detected provider is in the table. */
  lemma UnsupportedProviderUnreachable(model: string, dispatch: string -> Result<string, Error>)
    ensures CallLlm(model, dispatch) == dispatch(DetectProvider(model))
  {
  }

  // ---------------------------------------------------------------- parsing the answer

  /** A line of the answer as the parser sees it: a heading with its section key, or a text line. */
  datatype LlmLine = HeadingLine(key: string) | TextLine(line: string)

  /** `line.strip('#').strip().lower().replace(' ', '_')`. */
  function SectionKey(line: string): string {
    ReplaceAll(Lower(Strip(StripChars(line, {'#'}))), " ", "_")
  }

  /** A line is a heading exactly when its stripped form starts with `#`. */
  function ClassifyLlm(line: string): (l: LlmLine)
    ensures l.HeadingLine? <==> StartsWith(Strip(line), "#")
    ensures l.HeadingLine? ==> l.key == SectionKey(line)
    ensures l.TextLine? ==> l.line == line
  {
    if StartsWith(Strip(line), "#") then HeadingLine(SectionKey(line)) else TextLine(line)
  }

  function ClassifyAnswer(lines: seq<string>): (ls: seq<LlmLine>)
    ensures |ls| == |lines| && forall i :: 0 <= i < |lines| ==> ls[i] == ClassifyLlm(lines[i])
  {
    seq(|lines|, i requires 0 <= i < |lines| => ClassifyLlm(lines[i]))
  }

  /** A section's text: its lines joined and stripped. */
  function Body(content: seq<string>): string {
    Strip(Join(content, "\n"))
  }

  /** Saving the open section: only a non-empty (truthy) key is saved. */
  function Close(sections: Dict<string>, current: string, content: seq<string>): Dict<string> {
    if current != "" then Put(sections, current, Body(content)) else sections
  }

  /** The parse loop from `ls` on, with the sections so far, the open key and its lines. */
  function Gather(ls: seq<LlmLine>, sections: Dict<string>, current: string, content: seq<string>): Dict<string>
    decreases |ls|
  {
    if ls == [] then Close(sections, current, content)
    else
      match ls[0]
      case HeadingLine(k) => Gather(ls[1..], Close(sections, current, content), k, [])
      case TextLine(l) => Gather(ls[1..], sections, current, content + [l])
  }

  /** `parse_llm_output`: the sections, or the whole answer under `content` when there are none. */
  function ParseLlmOutput(output: string): (r: Dict<string>)
    ensures r != []
  {
    var sections := Gather(ClassifyAnswer(Split(output, '\n')), [], "", []);
    if sections == [] then [("content", output)] else sections
  }

  /** The texts of a run of text lines. */
  function Texts(ls: seq<LlmLine>): seq<string>
    requires forall i :: 0 <= i < |ls| ==> ls[i].TextLine?
  {
    seq(|ls|, i requires 0 <= i < |ls| => ls[i].line)
  }

  /** Text lines only add to the open section. */
  lemma {:induction false} GatherTexts(a: seq<LlmLine>, rest: seq<LlmLine>, s: Dict<string>, cur: string, c: seq<string>)
    requires forall i :: 0 <= i < |a| ==> a[i].TextLine?
    ensures Gather(a + rest, s, cur, c) == Gather(rest, s, cur, c + Texts(a))
    decreases |a|
  {
    if a == [] {
      assert a + rest == rest;
      assert c + Texts(a) == c;
    } else {
      assert (a + rest)[0] == a[0] && (a + rest)[1..] == a[1..] + rest;
      GatherTexts(a[1..], rest, s, cur, c + [a[0].line]);
      assert Texts(a) == [a[0].line] + Texts(a[1..]);
      assert c + [a[0].line] + Texts(a[1..]) == c + Texts(a);
    }
  }

  /** Lines before the first heading are dropped. */
  lemma PreambleDropped(pre: seq<LlmLine>, k: string, rest: seq<LlmLine>)
    requires forall i :: 0 <= i < |pre| ==> pre[i].TextLine?
    ensures Gather(pre + ([HeadingLine(k)] + rest), [], "", []) == Gather(rest, [], k, [])
  {
    GatherTexts(pre, [HeadingLine(k)] + rest, [], "", []);
    assert ([HeadingLine(k)] + rest)[1..] == rest;
  }

  /** With no heading carrying a non-empty key, nothing is saved. */
  lemma {:induction false} GatherUnkeyed(ls: seq<LlmLine>, s: Dict<string>, c: seq<string>)
    requires forall i :: 0 <= i < |ls| && ls[i].HeadingLine? ==> ls[i].key == ""
    ensures Gather(ls, s, "", c) == s
    decreases |ls|
  {
    if ls != [] {
      match ls[0]
      case HeadingLine(k) =>
        GatherUnkeyed(ls[1..], s, []);
      case TextLine(l) =>
        GatherUnkeyed(ls[1..], s, c + [l]);
    }
  }

  /** An answer without a (non-empty) heading is returned whole under `content`. */
  lemma NoHeadingIsContent(output: string)
    requires forall line :: line in Split(output, '\n') && ClassifyLlm(line).HeadingLine? ==> ClassifyLlm(line).key == ""
    ensures ParseLlmOutput(output) == [("content", output)]
  {
    var lines := Split(output, '\n');
    var ls := ClassifyAnswer(lines);
    forall i | 0 <= i < |ls| && ls[i].HeadingLine?
      ensures ls[i].key == ""
    {
      assert lines[i] in lines;
    }
    GatherUnkeyed(ls, [], []);
  }

  /** A repeated heading overwrites the earlier section's text, keeping its place. */
  lemma RepeatedHeadingOverwrites(k: string, a: seq<LlmLine>, b: seq<LlmLine>)
    requires k != ""
    requires forall i :: 0 <= i < |a| ==> a[i].TextLine?
    requires forall i :: 0 <= i < |b| ==> b[i].TextLine?
    ensures Gather([HeadingLine(k)] + (a + ([HeadingLine(k)] + b)), [], "", []) == [(k, Body(Texts(b)))]
  {
    var ls := [HeadingLine(k)] + (a + ([HeadingLine(k)] + b));
    assert ls[0] == HeadingLine(k) && ls[1..] == a + ([HeadingLine(k)] + b);
    GatherTexts(a, [HeadingLine(k)] + b, [], k, []);
    assert ([HeadingLine(k)] + b)[1..] == b;
    var first := Put([], k, Body([] + Texts(a)));
    assert first == [(k, Body([] + Texts(a)))];
    GatherTexts(b, [], first, k, []);
    assert b + [] == b;
    assert [] + Texts(b) == Texts(b);
  }

  /** The parse loop of `parse_llm_output`, over the classified lines. */
  method ParseSections(ls: seq<LlmLine>) returns (sections: Dict<string>)
    ensures sections == Gather(ls, [], "", [])
  {
    sections := [];
    var current := "";
    var content: seq<string> := [];
    var i := 0;
    while i < |ls|
      invariant 0 <= i <= |ls|
      invariant Gather(ls[i..], sections, current, content) == Gather(ls, [], "", [])
    {
      assert ls[i..][0] == ls[i] && ls[i..][1..] == ls[i + 1..];
      match ls[i] {
        case HeadingLine(k) =>
          if current != "" {
            sections := Put(sections, current, Body(content));
          }
          current := k;
          content := [];
        case TextLine(l) =>
          content := content + [l];
      }
      i := i + 1;
    }
    if current != "" {
      sections := Put(sections, current, Body(content));
    }
  }

  /** `parse_llm_output`. */
  method ParseLlmAnswer(output: string) returns (sections: Dict<string>)
    ensures sections == ParseLlmOutput(output)
  {
    sections := ParseSections(ClassifyAnswer(Split(output, '\n')));
    if sections == [] {
      sections := [("content", output)];
    }
  }

  // ---------------------------------------------------------------- prompt lists

  /** `v[:n]` on a decoded value: strings and lists slice, anything else raises. */
  function Head(j: Json, n: nat): (r: Result<Json, Error>)
    ensures r.Ok? <==> j.JStr? || j.JArr?
    ensures r.Ok? ==> Len(r.value).Some? && Len(r.value).value <= n
    ensures j.JStr? ==> r == Ok(JStr(SliceTo(j.s, n)))
  {
    match j
    case JStr(s) => Ok(JStr(SliceTo(s, n)))
    case JArr(xs) => Ok(JArr(SliceTo(xs, n)))
    case _ => Err(TypeError("object is not subscriptable"))
  }

  /** What a prompt list becomes: a placeholder text, or the entries json.dumps renders. */
  datatype PromptList = Placeholder(text: string) | Listed(entries: seq<Json>)

  /** A commit for developers: six fields, the body cut to 200 characters. */
  function DevCommit(c: Json): (r: Result<Json, Error>)
    ensures r.Ok? ==> c.JObj? && r.value.JObj?
    ensures r.Ok? ==> r.value.fields.Keys == {"hash", "author", "subject", "body", "type", "url"}
    ensures r.Ok? ==> Len(r.value.fields["body"]).Some? && Len(r.value.fields["body"]).value <= 200
  {
    match c
    case JObj(m) =>
      (match Head(Field(m, "body", JStr("")), 200)
       case Err(e) => Err(e)
       case Ok(body) =>
         Ok(JObj(map[
           "hash" := Field(m, "hash", JStr("")), "author" := Field(m, "author", JStr("")),
           "subject" := Field(m, "subject", JStr("")), "body" := body,
           "type" := Field(m, "type", JStr("other")), "url" := Field(m, "url", JStr(""))])))
    case _ => Err(AttributeError("object has no attribute 'get'"))
  }

  /** A commit for users and managers: subject, type and author only. */
  function UserCommit(c: Json): (r: Result<Json, Error>)
    ensures r.Ok? <==> c.JObj?
    ensures r.Ok? ==> r.value.JObj? && r.value.fields.Keys == {"subject", "type", "author"}
  {
    match c
    case JObj(m) =>
      Ok(JObj(map[
        "subject" := Field(m, "subject", JStr("")), "type" := Field(m, "type", JStr("other")),
        "author" := Field(m, "author", JStr(""))]))
    case _ => Err(AttributeError("object has no attribute 'get'"))
  }

  /** `_format_commits_for_prompt`, before json.dumps. */
  function CommitsForPrompt(commits: seq<Json>, audience: string): PromptResult {
    if commits == [] then Ok(Placeholder("No commits provided"))
    else
      var r := if audience == "developers" then MapAll(SliceTo(commits, 50), DevCommit)
               else MapAll(SliceTo(commits, 30), UserCommit);
      if r.Err? then Err(r.error) else Ok(Listed(r.value))
  }

  type PromptResult = Result<PromptList, Error>

  /**
   * An empty list gives "No commits provided"; developers get the first 50 commits with
   * bodies cut to 200 characters, other audiences the first 30 with subject, type and
   * author only.
   */
  lemma CommitLimits(commits: seq<Json>, audience: string)
    ensures commits == [] ==> CommitsForPrompt(commits, audience) == Ok(Placeholder("No commits provided"))
    ensures var r := CommitsForPrompt(commits, audience);
      var limit := if audience == "developers" then 50 else 30;
      commits != [] && r.Ok? ==>
        && r.value.Listed?
        && |r.value.entries| == (if |commits| <= limit then |commits| else limit)
        && forall i :: 0 <= i < |r.value.entries| ==>
             && r.value.entries[i].JObj?
             && (audience == "developers" ==> Ok(r.value.entries[i]) == DevCommit(commits[i]))
             && (audience != "developers" ==> r.value.entries[i].fields.Keys == {"subject", "type", "author"})
  {
    if commits != [] {
      if audience == "developers" {
        MapAllEach(SliceTo(commits, 50), DevCommit);
      } else {
        MapAllEach(SliceTo(commits, 30), UserCommit);
      }
    }
  }

  method FormatCommitsForPrompt(commits: seq<Json>, audience: string) returns (r: PromptResult)
    ensures r == CommitsForPrompt(commits, audience)
  {
    if commits == [] {
      return Ok(Placeholder("No commits provided"));
    }
    var formatted;
    if audience == "developers" {
      formatted := MapEach(SliceTo(commits, 50), DevCommit);
    } else {
      formatted := MapEach(SliceTo(commits, 30), UserCommit);
    }
    if formatted.Err? {
      return Err(formatted.error);
    }
    r := Ok(Listed(formatted.value));
  }

  /** An issue for the prompt: title, number, labels and state, plus body[:300] and url for developers. */
  function IssueEntry(audience: string): Json -> Result<Json, Error> {
    (issue: Json) =>
      match issue
      case JObj(m) =>
        var item := map[
          "title" := Field(m, "title", JStr("")), "number" := Field(m, "number", JStr("")),
          "labels" := Field(m, "labels", JArr([])), "state" := Field(m, "state", JStr(""))];
        if audience == "developers" then
          match Head(Field(m, "body", JStr("")), 300)
          case Err(e) => Err(e)
          case Ok(body) => Ok(JObj(item["body" := body]["url" := Field(m, "url", JStr(""))]))
        else Ok(JObj(item))
      case _ => Err(AttributeError("object has no attribute 'get'"))
  }

  /** `_format_issues_for_prompt`, before json.dumps. */
  function IssuesForPrompt(issues: seq<Json>, audience: string): PromptResult {
    if issues == [] then Ok(Placeholder("No issues provided"))
    else
      var r := MapAll(SliceTo(issues, 30), IssueEntry(audience));
      if r.Err? then Err(r.error) else Ok(Listed(r.value))
  }

  /** At most 30 issues; body and url are added for developers only, the body cut to 300 characters. */
  lemma IssueLimits(issues: seq<Json>, audience: string)
    ensures issues == [] ==> IssuesForPrompt(issues, audience) == Ok(Placeholder("No issues provided"))
    ensures var r := IssuesForPrompt(issues, audience);
      issues != [] && r.Ok? ==>
        && r.value.Listed?
        && |r.value.entries| == (if |issues| <= 30 then |issues| else 30)
        && forall i :: 0 <= i < |r.value.entries| ==>
             var e := r.value.entries[i];
             && e.JObj?
             && {"title", "number", "labels", "state"} <= e.fields.Keys
             && ("body" in e.fields <==> audience == "developers")
             && ("url" in e.fields <==> audience == "developers")
             && (audience == "developers" ==> Len(e.fields["body"]).Some? && Len(e.fields["body"]).value <= 300)
  {
    if issues != [] {
      var xs := SliceTo(issues, 30);
      MapAllEach(xs, IssueEntry(audience));
      var r := MapAll(xs, IssueEntry(audience));
      if r.Ok? {
        forall i | 0 <= i < |r.value|
          ensures var e := r.value[i];
            && e.JObj?
            && {"title", "number", "labels", "state"} <= e.fields.Keys
            && ("body" in e.fields <==> audience == "developers")
            && ("url" in e.fields <==> audience == "developers")
            && (audience == "developers" ==> Len(e.fields["body"]).Some? && Len(e.fields["body"]).value <= 300)
        {
          assert r.value[i] == IssueEntry(audience)(xs[i]).value;
        }
      }
    }
  }

  method FormatIssuesForPrompt(issues: seq<Json>, audience: string) returns (r: PromptResult)
    ensures r == IssuesForPrompt(issues, audience)
  {
    if issues == [] {
      return Ok(Placeholder("No issues provided"));
    }
    var formatted := MapEach(SliceTo(issues, 30), IssueEntry(audience));
    if formatted.Err? {
      return Err(formatted.error);
    }
    r := Ok(Listed(formatted.value));
  }

  /** A previous release for the prompt: version, name and the body's first 500 characters. */
  function ReleaseEntry(release: Json): (r: Result<Json, Error>)
    ensures r.Ok? ==> r.value.JObj? && r.value.fields.Keys == {"version", "name", "summary"}
    ensures r.Ok? ==> Len(r.value.fields["summary"]).Some? && Len(r.value.fields["summary"]).value <= 500
  {
    match release
    case JObj(m) =>
      (match Head(Field(m, "body", JStr("")), 500)
       case Err(e) => Err(e)
       case Ok(summary) =>
         Ok(JObj(map["version" := Field(m, "version", JStr("")), "name" := Field(m, "name", JStr("")), "summary" := summary])))
    case _ => Err(AttributeError("object has no attribute 'get'"))
  }

  /** `_format_previous_releases`, before json.dumps: "None" for no releases, else the first three. */
  function ReleasesForPrompt(releases: seq<Json>): PromptResult {
    if releases == [] then Ok(Placeholder("None"))
    else
      var r := MapAll(SliceTo(releases, 3), ReleaseEntry);
      if r.Err? then Err(r.error) else Ok(Listed(r.value))
  }

  /** At most three previous releases, each summarised in at most 500 characters. */
  lemma ReleaseLimits(releases: seq<Json>)
    ensures var r := ReleasesForPrompt(releases);
      releases != [] && r.Ok? ==>
        && r.value.Listed?
        && |r.value.entries| == (if |releases| <= 3 then |releases| else 3)
        && forall i :: 0 <= i < |r.value.entries| ==> Ok(r.value.entries[i]) == ReleaseEntry(releases[i])
  {
    if releases != [] {
      MapAllEach(SliceTo(releases, 3), ReleaseEntry);
    }
  }

  method FormatPreviousReleases(releases: seq<Json>) returns (r: PromptResult)
    ensures r == ReleasesForPrompt(releases)
  {
    if releases == [] {
      return Ok(Placeholder("None"));
    }
    var formatted := MapEach(SliceTo(releases, 3), ReleaseEntry);
    if formatted.Err? {
      return Err(formatted.error);
    }
    r := Ok(Listed(formatted.value));
  }

  // ---------------------------------------------------------------- audience texts

  const UsersInstructions := "\nFocus on user-facing changes and benefits. Use simple language and explain the impact.\nAvoid technical jargon and implementation details.\n"
  const DevelopersInstructions := "\nInclude technical details, API changes, breaking changes, and implementation notes.\nReference commit hashes, PR numbers, and provide code examples where relevant.\n"
  const ManagersInstructions := "\nFocus on business value, feature completeness, and high-level improvements.\nEmphasize outcomes and benefits rather than technical implementation.\n"

  const DevelopersSections := "Use sections: Highlights, New Features, API Changes, Bug Fixes, Breaking Changes, Technical Improvements, Dependencies"
  const ManagersSections := "Use sections: Executive Summary, Key Features, Business Impact, Improvements, Known Issues"
  const UsersSections := "Use sections: Highlights, New Features, Improvements, Bug Fixes, Known Issues"

  /** The three known audiences. */
  const Audiences: set<string> := {"users", "developers", "managers"}

  /** `_get_audience_instructions`: the audience's paragraph, or "" for an unknown audience. */
  function AudienceInstructions(audience: string): (t: string)
    ensures t == "" <==> audience !in Audiences
  {
    var table := map["users" := UsersInstructions, "developers" := DevelopersInstructions, "managers" := ManagersInstructions];
    if audience in table then table[audience] else ""
  }

  /** `_get_default_sections`: developers and managers have their own lists; every other audience gets the users' list. */
  function DefaultSections(audience: string): (t: string)
    ensures audience !in {"developers", "managers"} ==> t == UsersSections
  {
    if audience == "developers" then DevelopersSections
    else if audience == "managers" then ManagersSections
    else UsersSections
  }

  /** An unknown audience gets no instructions and the users' sections. */
  lemma UnknownAudience(audience: string)
    requires audience !in Audiences
    ensures AudienceInstructions(audience) == "" && DefaultSections(audience) == UsersSections
  {
  }
}
