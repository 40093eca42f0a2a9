/**
 * The fallbacks used when no hosted model is reachable: the list of local Ollama models
 * plus a template option, release notes filled in from a fixed template, and a single
 * generation call to a local Ollama server.
 */
module FallbackLlm {
  import opened Outcomes
  import opened Errors
  import opened Text
  import opened JsonValue
  import opened Paging
  import LlmService

  /** An entry of the model list offered to the user. */
  datatype ModelOption = ModelOption(id: string, name: string, pricing: string, description: string)

  /** The option that is always offered last. */
  const TemplateBasic := ModelOption("template-basic", "Template-Based (No AI)", "Free",
                                     "Generate release notes using templates without AI")

  const OllamaPrefix := "ollama/"

  // ---------------------------------------------------------------- model list

  /** `check_ollama_available`: the tags endpoint answered 200; any exception means no. */
  predicate OllamaAvailable(answer: Result<Reply<Json>, Error>) {
    answer.Ok? && answer.value.status == 200
  }

  /** One listed model; `None` when it has no string `name` (the source then raises and returns no models). */
  function OllamaEntry(model: Json): (o: Option<ModelOption>)
    ensures o.Some? <==> model.JObj? && "name" in model.fields && model.fields["name"].JStr?
    ensures o.Some? ==> o.value.id == OllamaPrefix + model.fields["name"].s
    ensures o.Some? ==> o.value.name == "Ollama: " + Title(model.fields["name"].s)
  {
    if model.JObj? && "name" in model.fields && model.fields["name"].JStr? then
      var n := model.fields["name"].s;
      Some(ModelOption(OllamaPrefix + n, "Ollama: " + Title(n), "Local/Free", "Local Ollama model"))
    else None
  }

  /** The entries of `data.get('models', [])` when it is a list; any other shape raises and gives no models. */
  function ListedModels(answer: Result<Reply<Json>, Error>): seq<Json> {
    if answer.Ok? && answer.value.status == 200 && answer.value.body.JObj? then
      match Field(answer.value.body.fields, "models", JArr([]))
      case JArr(ms) => ms
      case _ => []
    else []
  }

  /** `get_ollama_models`: one option per listed model, or none at all when any entry is unusable. */
  function OllamaModels(answer: Result<Reply<Json>, Error>): (ms: seq<ModelOption>)
  {
    var listed := ListedModels(answer);
    if forall i :: 0 <= i < |listed| ==> OllamaEntry(listed[i]).Some? then
      seq(|listed|, i requires 0 <= i < |listed| => OllamaEntry(listed[i]).value)
    else []
  }

  /**
   * A failed request, a non-200 status or an unusable entry gives no models; otherwise
   * each listed model gives one option, in order, whose id is "ollama/" and its name.
   */
  lemma OllamaModelsShape(answer: Result<Reply<Json>, Error>)
    ensures !OllamaAvailable(answer) ==> OllamaModels(answer) == []
    ensures var listed := ListedModels(answer);
      var ms := OllamaModels(answer);
      ms != [] ==>
        && |ms| == |listed|
        && forall i :: 0 <= i < |ms| ==>
             && listed[i].JObj? && "name" in listed[i].fields && listed[i].fields["name"].JStr?
             && ms[i].id == OllamaPrefix + listed[i].fields["name"].s
    ensures var listed := ListedModels(answer);
      (forall i :: 0 <= i < |listed| ==> OllamaEntry(listed[i]).Some?) ==> |OllamaModels(answer)| == |listed|
    ensures var listed := ListedModels(answer);
      (exists i :: 0 <= i < |listed| && OllamaEntry(listed[i]).None?) ==> OllamaModels(answer) == []
  {
  }

  /** The loop of `get_ollama_models`. */
  method CollectOllamaModels(answer: Result<Reply<Json>, Error>) returns (ms: seq<ModelOption>)
    ensures ms == OllamaModels(answer)
  {
    var listed := ListedModels(answer);
    ms := [];
    var i := 0;
    while i < |listed|
      invariant 0 <= i <= |listed|
      invariant |ms| == i && forall k :: 0 <= k < i ==> OllamaEntry(listed[k]) == Some(ms[k])
    {
      var entry := OllamaEntry(listed[i]);
      if entry.None? {
        return [];
      }
      ms := ms + [entry.value];
      i := i + 1;
    }
  }

  /** `get_fallback_models`: Ollama's models when its server answers, then the template option. */
  function FallbackModels(check: Result<Reply<Json>, Error>, listing: Result<Reply<Json>, Error>): (ms: seq<ModelOption>)
    ensures ms != [] && ms[|ms| - 1] == TemplateBasic
    ensures !OllamaAvailable(check) ==> ms == [TemplateBasic]
    ensures OllamaAvailable(check) ==> ms == OllamaModels(listing) + [TemplateBasic]
  {
    (if OllamaAvailable(check) then OllamaModels(listing) else []) + [TemplateBasic]
  }

  /** Whatever follows the "ollama/" prefix, the model is routed to Ollama. */
  lemma PrefixedNameRoutesToOllama(name: string)
    ensures LlmService.DetectProvider(OllamaPrefix + name) == "ollama"
  {
    var m := OllamaPrefix + name;
    assert m[..7] == OllamaPrefix;
    assert !StartsWith(m, "gpt-") && !StartsWith(m, "o1-") by {
      assert m[..4][0] == 'o' && m[..4][1] == 'l' && m[..3][1] == 'l';
    }
  }

  /** Every offered model is sent to a provider that can serve it: Ollama's to Ollama, the template option to the template. */
  lemma FallbackModelsRoute(check: Result<Reply<Json>, Error>, listing: Result<Reply<Json>, Error>)
    ensures var ms := FallbackModels(check, listing);
      forall i :: 0 <= i < |ms| - 1 ==> LlmService.DetectProvider(ms[i].id) == "ollama"
    ensures LlmService.DetectProvider(TemplateBasic.id) == "template"
  {
    var ms := FallbackModels(check, listing);
    OllamaModelsShape(listing);
    var listed := ListedModels(listing);
    forall i | 0 <= i < |ms| - 1
      ensures LlmService.DetectProvider(ms[i].id) == "ollama"
    {
      PrefixedNameRoutesToOllama(listed[i].fields["name"].s);
    }
    var t := TemplateBasic.id;
    assert t[..9] == "template-";
    assert !StartsWith(t, "gpt-") && !StartsWith(t, "o1-") && !StartsWith(t, "ollama/") by {
      assert t[..4][0] == 't' && t[..3][0] == 't' && t[..7][0] == 't';
    }
  }

  // ---------------------------------------------------------------- template notes

  /** The parts concatenated in order. */
  function Concat(parts: seq<string>): string
    decreases |parts|
  {
    if parts == [] then "" else Concat(parts[..|parts| - 1]) + parts[|parts| - 1]
  }

  /** A commit's line under "What's New": its subject, "Update" when it has none. */
  function CommitLine(commit: Json): (r: Result<string, Error>)
    ensures r.Ok? <==> commit.JObj?
    ensures r.Ok? ==> r.value == "- " + Str(Field(commit.fields, "subject", JStr("Update"))) + "\n"
  {
    match commit
    case JObj(m) => Ok("- " + Str(Field(m, "subject", JStr("Update"))) + "\n")
    case _ => Err(AttributeError("object has no attribute 'get'"))
  }

  /** An issue's line under "Bug Fixes": its title ("Bug fix" by default) and, when the number is truthy, " (#number)". */
  function IssueLine(issue: Json): (r: Result<string, Error>)
    ensures r.Ok? <==> issue.JObj?
  {
    match issue
    case JObj(m) =>
      var title := Str(Field(m, "title", JStr("Bug fix")));
      var number := Field(m, "number", JStr(""));
      if Truthy(number) then Ok("- " + title + " (#" + Str(number) + ")\n") else Ok("- " + title + "\n")
    case _ => Err(AttributeError("object has no attribute 'get'"))
  }

  /** The number is mentioned exactly when it is truthy. */
  lemma IssueNumberShown(m: map<string, Json>)
    ensures var title := Str(Field(m, "title", JStr("Bug fix")));
      var number := Field(m, "number", JStr(""));
      && (Truthy(number) ==> IssueLine(JObj(m)) == Ok("- " + title + " (#" + Str(number) + ")\n"))
      && (!Truthy(number) ==> IssueLine(JObj(m)) == Ok("- " + title + "\n"))
    ensures "number" !in m ==> IssueLine(JObj(m)) == Ok("- " + Str(Field(m, "title", JStr("Bug fix"))) + "\n")
  {
  }

  // The template's fixed pieces, in order.
  const ReleaseHeading := "# Release "
  const HighlightsHeading := "\n\n## Highlights\n- "
  const CommitsIncluded := " commits included in this release\n- "
  const IssuesAddressed := " issues addressed\n- Focused on "
  const WhatsNewHeading := " experience\n\n## What's New\n"
  const BugFixesHeading := "\n## Bug Fixes\n"
  const TotalCommits := "\n## Technical Details\n- Total commits: "
  const IssuesResolved := "\n- Issues resolved: "
  const TargetAudience := "\n- Target audience: "
  const InstallationSection :=
    "\n\n## Installation\nPlease refer to the installation documentation for upgrade instructions.\n\n---\n*Generated with Release Notes Generator*\n"

  /** The template up to the commit lines. */
  function TemplateHeader(version: string, commitCount: nat, issueCount: nat, audience: string): string {
    ReleaseHeading + version + HighlightsHeading + IntToString(commitCount) + CommitsIncluded
    + IntToString(issueCount) + IssuesAddressed + audience + WhatsNewHeading
  }

  /** The template after the issue lines; the counts are of all commits and issues, not of the five listed. */
  function TemplateFooter(commitCount: nat, issueCount: nat, audience: string): string {
    TotalCommits + IntToString(commitCount) + IssuesResolved + IntToString(issueCount)
    + TargetAudience + Title(audience) + InstallationSection
  }

  /** The filled-in parts of the template: the two counts cover all commits and issues, the lines only the first five. */
  datatype TemplateDoc = TemplateDoc(
    version: string, commitCount: nat, issueCount: nat, audience: string,
    whatsNew: seq<string>, bugFixes: seq<string>)

  /** The notes' text: the fixed sections around the two lists of lines. */
  function RenderTemplate(d: TemplateDoc): string {
    Layout(TemplateHeader(d.version, d.commitCount, d.issueCount, d.audience), d.whatsNew, d.bugFixes,
           TemplateFooter(d.commitCount, d.issueCount, d.audience))
  }

  /** The head, the "What's New" lines, the "Bug Fixes" heading and lines, and the foot. */
  function Layout(head: string, whatsNew: seq<string>, bugFixes: seq<string>, foot: string): string {
    head + Concat(whatsNew) + BugFixesHeading + Concat(bugFixes) + foot
  }

  /** `generate_with_template`: at most five commit lines and five issue lines between fixed text. */
  function TemplateNotes(version: string, commits: seq<Json>, issues: seq<Json>, audience: string): Result<TemplateDoc, Error> {
    var cl := MapAll(SliceTo(commits, 5), CommitLine);
    if cl.Err? then Err(cl.error)
    else
      var il := MapAll(SliceTo(issues, 5), IssueLine);
      if il.Err? then Err(il.error)
      else Ok(TemplateDoc(version, |commits|, |issues|, audience, cl.value, il.value))
  }

  /** The template fails exactly when one of the first five commits or issues is not an object. */
  lemma TemplateFailsOnNonObject(version: string, commits: seq<Json>, issues: seq<Json>, audience: string)
    ensures var nc := if |commits| <= 5 then |commits| else 5;
      var ni := if |issues| <= 5 then |issues| else 5;
      TemplateNotes(version, commits, issues, audience).Ok? <==>
        (forall i :: 0 <= i < nc ==> commits[i].JObj?) && (forall i :: 0 <= i < ni ==> issues[i].JObj?)
  {
    var cs, ts := SliceTo(commits, 5), SliceTo(issues, 5);
    assert TemplateNotes(version, commits, issues, audience).Ok? <==> MapAll(cs, CommitLine).Ok? && MapAll(ts, IssueLine).Ok?;
    AllObjects(cs, CommitLine);
    AllObjects(ts, IssueLine);
  }

  /** For a line function that fails exactly on non-objects, the loop succeeds exactly on a list of objects. */
  lemma AllObjects(xs: seq<Json>, line: Json -> Result<string, Error>)
    requires forall j :: line(j).Ok? <==> j.JObj?
    ensures MapAll(xs, line).Ok? <==> forall i :: 0 <= i < |xs| ==> xs[i].JObj?
  {
    MapAllEach(xs, line);
  }

  /**
   * A filled-in template counts all commits and issues, and lists one line for each of
   * the first five commits and the first five issues, in order.
   */
  lemma TemplateListsFirstFive(version: string, commits: seq<Json>, issues: seq<Json>, audience: string)
    requires TemplateNotes(version, commits, issues, audience).Ok?
    ensures var d := TemplateNotes(version, commits, issues, audience).value;
      && d == TemplateDoc(version, |commits|, |issues|, audience, d.whatsNew, d.bugFixes)
      && |d.whatsNew| == (if |commits| <= 5 then |commits| else 5)
      && |d.bugFixes| == (if |issues| <= 5 then |issues| else 5)
      && (forall i :: 0 <= i < |d.whatsNew| ==> Ok(d.whatsNew[i]) == CommitLine(commits[i]))
      && (forall i :: 0 <= i < |d.bugFixes| ==> Ok(d.bugFixes[i]) == IssueLine(issues[i]))
  {
    MapAllEach(SliceTo(commits, 5), CommitLine);
    MapAllEach(SliceTo(issues, 5), IssueLine);
  }

  /** Appends each item's line to `text`, stopping at the first item that raises. */
  method AppendLines(text: string, items: seq<Json>, line: Json -> Result<string, Error>) returns (r: Result<string, Error>)
    ensures MapAll(items, line).Err? ==> r == Err(MapAll(items, line).error)
    ensures MapAll(items, line).Ok? ==> r == Ok(text + Concat(MapAll(items, line).value))
  {
    var out := text;
    var lines: seq<string> := [];
    var i := 0;
    while i < |items|
      invariant 0 <= i <= |items|
      invariant MapAll(items[..i], line) == Ok(lines)
      invariant out == text + Concat(lines)
    {
      assert items[..i + 1][..i] == items[..i];
      var l := line(items[i]);
      if l.Err? {
        MapAllStopsAtError(items, i + 1, line);
        return Err(l.error);
      }
      assert (lines + [l.value])[..|lines|] == lines;
      lines := lines + [l.value];
      out := out + l.value;
      i := i + 1;
    }
    assert items[..i] == items;
    r := Ok(out);
  }

  /** The body of `generate_with_template` between its fixed head and foot. */
  method FillTemplate(head: string, commits: seq<Json>, issues: seq<Json>, foot: string) returns (r: Result<string, Error>)
    ensures var cl, il := MapAll(commits, CommitLine), MapAll(issues, IssueLine);
      && (cl.Err? ==> r == Err(cl.error))
      && (cl.Ok? && il.Err? ==> r == Err(il.error))
      && (cl.Ok? && il.Ok? ==> r == Ok(Layout(head, cl.value, il.value, foot)))
  {
    var afterCommits := AppendLines(head, commits, CommitLine);
    if afterCommits.Err? {
      return afterCommits;
    }
    var afterIssues := AppendLines(afterCommits.value + BugFixesHeading, issues, IssueLine);
    if afterIssues.Err? {
      return afterIssues;
    }
    r := Ok(afterIssues.value + foot);
  }

  /** `generate_with_template`. */
  method GenerateWithTemplate(version: string, commits: seq<Json>, issues: seq<Json>, audience: string)
    returns (r: Result<string, Error>)
    ensures var d := TemplateNotes(version, commits, issues, audience);
      && (d.Err? ==> r == Err(d.error))
      && (d.Ok? ==> r == Ok(RenderTemplate(d.value)))
  {
    var head, foot := TemplateHeader(version, |commits|, |issues|, audience), TemplateFooter(|commits|, |issues|, audience);
    r := FillTemplate(head, SliceTo(commits, 5), SliceTo(issues, 5), foot);
    ghost var cl, il := MapAll(SliceTo(commits, 5), CommitLine), MapAll(SliceTo(issues, 5), IssueLine);
    if cl.Ok? && il.Ok? {
      ghost var d := TemplateDoc(version, |commits|, |issues|, audience, cl.value, il.value);
      assert TemplateNotes(version, commits, issues, audience) == Ok(d);
    }
  }

  // ---------------------------------------------------------------- one Ollama generation

  /** The body posted to Ollama's generate endpoint (`stream` is always false). */
  datatype GenerateRequest = GenerateRequest(model: string, prompt: string)

  /** What `generate_with_ollama` returns: the answer's `response`, an error status, or a caught exception. */
  datatype Generated = Answer(response: Json) | StatusError(status: int) | Failed(error: Error)

  function OllamaRequest(model: string, prompt: string): GenerateRequest {
    GenerateRequest(ReplaceAll(model, OllamaPrefix, ""), prompt)
  }

  /** The text returned for each outcome; a caught exception's message is not modelled. */
  function GeneratedText(g: Generated): (t: Option<string>)
    ensures g.StatusError? ==> t == Some("Ollama error: " + IntToString(g.status))
    ensures g.Failed? ==> t.None?
  {
    match g
    case Answer(j) => Some(Str(j))
    case StatusError(s) => Some("Ollama error: " + IntToString(s))
    case Failed(_) => None
  }

  /** `generate_with_ollama`: never raises; `answer` is the outcome of the POST. */
  function GenerateWithOllama(answer: Result<Reply<Json>, Error>): (g: Generated)
    ensures answer.Err? ==> g == Failed(answer.error)
    ensures answer.Ok? && answer.value.status != 200 ==> g == StatusError(answer.value.status)
    ensures answer.Ok? && answer.value.status == 200 && answer.value.body.JObj? ==>
      g == Answer(Field(answer.value.body.fields, "response", JStr("Generation failed")))
  {
    match answer
    case Err(e) => Failed(e)
    case Ok(reply) =>
      if reply.status != 200 then StatusError(reply.status)
      else
        match Get(reply.body, "response", JStr("Generation failed"))
        case Ok(j) => Answer(j)
        case Err(e) => Failed(e)
  }

  /** An id from the model list is sent to Ollama under the model's own name. */
  lemma ListedIdRoundTrip(name: string, prompt: string)
    requires !Contains(name, OllamaPrefix)
    ensures OllamaRequest(OllamaPrefix + name, prompt).model == name
  {
    var m := OllamaPrefix + name;
    assert m[..|OllamaPrefix|] == OllamaPrefix && m[|OllamaPrefix|..] == name;
    ReplaceAbsent(name, OllamaPrefix, "");
  }
}
