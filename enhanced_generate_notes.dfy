/**
 * The enhanced pipeline: ingest the data, generate the notes, append the model footer,
 * save them, publish them to the requested platforms, and report. Any exception in any
 * step ends the pipeline with one error result.
 */
module EnhancedPipeline {
  import opened Outcomes
  import opened Errors
  import opened Dicts
  import opened JsonValue
  import Text
  import DataIngestion
  import Publishing

  /** What the generation step returns: the markdown, its sections and its metadata. */
  datatype Generation = Generation(rawOutput: string, structured: Dict<string>, metadata: Dict<Json>)

  /** The three counts of the ingested data. */
  datatype DataSummary = DataSummary(commits: nat, issues: nat, previousReleases: nat)

  /** The pipeline's answer: the success record, or the error record naming the version. */
  datatype PipelineResult =
    | Success(
        version: string, outputFile: string, rawOutput: string, structured: Dict<string>,
        metadata: Dict<Json>, publishing: Option<Publishing.PublishResult>, summary: DataSummary)
    | Failure(error: Error, version: string)

  /**
   * The outcomes of the steps that leave the model: the generation call, and the failure
   * (if any) of creating the output directory and writing the file.
   */
  datatype Steps = Steps(generated: Result<Generation, Error>, writeFailure: Option<Error>)

  const FooterStart := "\n\n---\n*Generated with AI model: "
  const FooterEnd := "*\n"

  /** The footer naming the model. */
  function ModelFooter(model: Json): string {
    FooterStart + Str(model) + FooterEnd
  }

  /** The components `str(Path(p))` keeps: empty ones and "." are dropped, in order. */
  function KeptComponents(parts: seq<string>): (r: seq<string>)
    ensures |r| <= |parts|
    ensures forall k :: 0 <= k < |r| ==> r[k] != "" && r[k] != "." && r[k] in parts
  {
    if parts == [] then []
    else (if parts[0] == "" || parts[0] == "." then [] else [parts[0]]) + KeptComponents(parts[1..])
  }

  /** The root `str(Path(p))` keeps: exactly two leading slashes stay, one or three and more become one. */
  function PathRoot(p: string): string {
    if |p| >= 2 && p[..2] == "//" && (|p| == 2 || p[2] != '/') then "//"
    else if |p| >= 1 && p[0] == '/' then "/"
    else ""
  }

  /**
   * `str(Path(p))` on POSIX: the root, then the components that are neither empty nor
   * ".", joined by single slashes; "." when nothing is left.
   */
  function PathText(p: string): (r: string)
    ensures r != ""
  {
    var body := Text.Join(KeptComponents(Text.Split(p, '/')), "/");
    if PathRoot(p) + body == "" then "." else PathRoot(p) + body
  }

  /** A relative path whose components are all neither empty nor "." */
  predicate NormalRelative(p: string) {
    p != "" && p[0] != '/' &&
    forall k :: 0 <= k < |Text.Split(p, '/')| ==> Text.Split(p, '/')[k] != "" && Text.Split(p, '/')[k] != "."
  }

  /** Components that are all kept are kept as they are. */
  lemma {:induction false} KeptAll(parts: seq<string>)
    requires forall k :: 0 <= k < |parts| ==> parts[k] != "" && parts[k] != "."
    ensures KeptComponents(parts) == parts
  {
    if parts != [] {
      KeptAll(parts[1..]);
    }
  }

  /** A path already in normal relative form is reported as it is. */
  lemma NormalPathUnchanged(p: string)
    requires NormalRelative(p)
    ensures PathText(p) == p
  {
    KeptAll(Text.Split(p, '/'));
    Text.JoinSplit(p, '/');
  }

  /** The reported form of a relative path is itself in normal form, so normalising twice changes nothing. */
  lemma PathTextIdempotent(p: string)
    requires p != "" && p[0] != '/'
    ensures PathText(p) != "." ==> NormalRelative(PathText(p))
    ensures PathText(PathText(p)) == PathText(p)
  {
    var parts := KeptComponents(Text.Split(p, '/'));
    assert PathRoot(p) == "";
    if parts == [] {
      assert PathText(p) == ".";
      DotPath();
    } else {
      Text.SplitPartsLackSeparator(p, '/');
      forall k | 0 <= k < |parts| ensures '/' !in parts[k] {
        assert parts[k] in Text.Split(p, '/');
      }
      assert PathText(p) == Text.Join(parts, "/");
      JoinedNormal(parts);
      NormalPathUnchanged(Text.Join(parts, "/"));
    }
  }

  /** "." is reported as it is. */
  lemma DotPath()
    ensures PathText(".") == "."
  {
    Text.SplitWithoutSeparator(".", '/');
    assert KeptComponents(["."]) == [];
  }

  /** Parts that are neither empty nor "." and hold no slash join into a normal relative path. */
  lemma JoinedNormal(parts: seq<string>)
    requires parts != []
    requires forall k :: 0 <= k < |parts| ==> parts[k] != "" && parts[k] != "." && '/' !in parts[k]
    ensures NormalRelative(Text.Join(parts, "/"))
  {
    Text.SplitJoin(parts, '/');
    JoinStartsWithFirst(parts, "/");
    assert parts[0][0] != '/';
  }

  /** A join of parts begins with its first part. */
  lemma JoinStartsWithFirst(parts: seq<string>, sep: string)
    requires parts != []
    ensures |Text.Join(parts, sep)| >= |parts[0]|
    ensures parts[0] != "" ==> Text.Join(parts, sep)[0] == parts[0][0]
  {
    if |parts| > 1 {
      Text.JoinCons(parts[0], parts[1..], sep);
      assert parts == [parts[0]] + parts[1..];
    }
  }

  /**
   * Where the notes are saved and reported: `str(Path(output_file))` for a given file,
   * otherwise the release file of the version in the examples folder.
   */
  function OutputPath(version: string, outputFile: Option<string>): (path: string)
    ensures Given(outputFile) ==> path == PathText(outputFile.value)
    ensures !Given(outputFile) ==> path == PathText("examples/release_" + version + ".md")
  {
    if Given(outputFile) then PathText(outputFile.value) else PathText("examples/release_" + version + ".md")
  }

  /** A given file already in normal relative form is reported as given. */
  lemma OutputPathKeepsNormal(version: string, file: string)
    requires NormalRelative(file)
    ensures OutputPath(version, Some(file)) == file
  {
    NormalPathUnchanged(file);
  }

  /** `repo` as a decoded value: null when absent. */
  function OptStr(s: Option<string>): Json {
    if s.Some? then JStr(s.value) else JNull
  }

  /** The ingestion metadata as the dict `ingest_all_data` returns. */
  function IngestionMetadata(m: DataIngestion.Metadata): (d: Dict<Json>)
    ensures UniqueKeys(d)
    ensures Keys(d) == ["version", "repo", "sources", "ingested_at"]
  {
    [("version", JStr(m.version)), ("repo", OptStr(m.repo)),
     ("sources", JObj(map["commits" := JStr(m.sources.commits), "issues" := JStr(m.sources.issues),
                          "releases" := JStr(m.sources.releases)])),
     ("ingested_at", JStr(m.ingestedAt))]
  }

  /** The counts printed after ingestion; `len()` of issues that are not a list raises. */
  function Summarise(d: DataIngestion.Dataset): (r: Result<DataSummary, Error>)
    ensures r.Ok? <==> Len(d.issues).Some?
    ensures r.Ok? ==> r.value == DataSummary(|d.commits|, Len(d.issues).value, DataIngestion.PreviousCount(d.previousReleases))
  {
    match Len(d.issues)
    case None => Err(TypeError("object has no len()"))
    case Some(n) => Ok(DataSummary(|d.commits|, n, DataIngestion.PreviousCount(d.previousReleases)))
  }

  /** The metadata handed to the publishers. */
  function PublishMetadata(repo: Option<string>, audience: string, model: Json, s: DataSummary): Publishing.Metadata {
    map["repo" := OptStr(repo), "audience" := JStr(audience), "model" := model,
        "data_summary" := JObj(map["commits_count" := JInt(s.commits), "issues_count" := JInt(s.issues),
                                   "previous_releases_count" := JInt(s.previousReleases)])]
  }

  /** The platforms list is truthy. */
  predicate Publishes(platforms: Option<seq<string>>) {
    platforms.Some? && platforms.value != []
  }

  /**
   * `generate_enhanced_release_notes`. `ingested` is the outcome of `ingest_all_data`
   * (with previous releases included and the given release source); the file that is
   * published is the one just written, so its content is the final markdown.
   */
  function GenerateEnhanced(
    version: string, repo: Option<string>, audience: string, platforms: Option<seq<string>>,
    outputFile: Option<string>, ingested: Result<DataIngestion.Dataset, Error>, steps: Steps,
    w: Publishing.PublishWorld): (r: PipelineResult)
    ensures r.version == version
    ensures ingested.Err? ==> r == Failure(ingested.error, version)
    ensures steps.writeFailure.Some? ==> r.Failure?
    ensures ingested.Ok? && Summarise(ingested.value).Err? ==> r == Failure(Summarise(ingested.value).error, version)
    ensures ingested.Ok? && Summarise(ingested.value).Ok? && steps.generated.Err? ==>
              r == Failure(steps.generated.error, version)
    ensures (ingested.Ok? && Summarise(ingested.value).Ok? && steps.generated.Ok?
             && Lookup(steps.generated.value.metadata, "model").None?) ==> r == Failure(KeyError("model"), version)
    ensures (ingested.Ok? && Summarise(ingested.value).Ok? && steps.generated.Ok?
             && Lookup(steps.generated.value.metadata, "model").Some?) ==>
              && (steps.writeFailure.Some? ==> r == Failure(steps.writeFailure.value, version))
              && (steps.writeFailure.None? ==> r.Success?)
    ensures r.Success? ==>
      && ingested.Ok? && steps.generated.Ok?
      && var g := steps.generated.value;
         && Lookup(g.metadata, "model").Some?
         && r.rawOutput == g.rawOutput + ModelFooter(Lookup(g.metadata, "model").value)
         && r.outputFile == OutputPath(version, outputFile)
         && r.structured == g.structured
         && r.metadata == Merge(g.metadata, IngestionMetadata(ingested.value.metadata))
         && Summarise(ingested.value) == Ok(r.summary)
         && (r.publishing.Some? <==> Publishes(platforms))
  {
    if ingested.Err? then Failure(ingested.error, version)
    else
      var data := ingested.value;
      var summary := Summarise(data);
      if summary.Err? then Failure(summary.error, version)
      else if steps.generated.Err? then Failure(steps.generated.error, version)
      else
        var g := steps.generated.value;
        var model := Lookup(g.metadata, "model");
        if model.None? then Failure(KeyError("model"), version)
        else
          var raw := g.rawOutput + ModelFooter(model.value);
          var path := OutputPath(version, outputFile);
          if steps.writeFailure.Some? then Failure(steps.writeFailure.value, version)
          else
            // A named, non-empty platform list with the file just written: auto_publish cannot fail.
            var published :=
              if Publishes(platforms) then
                Some(Publishing.AutoPublish(version, platforms, PublishMetadata(repo, audience, model.value, summary.value), Ok(raw), w).value)
              else None;
            Success(version, path, raw, g.structured, Merge(g.metadata, IngestionMetadata(data.metadata)),
                    published, summary.value)
  }

  /** The footer is appended exactly once, after the generated text. */
  lemma FooterAppendedOnce(
    version: string, repo: Option<string>, audience: string, platforms: Option<seq<string>>,
    outputFile: Option<string>, ingested: Result<DataIngestion.Dataset, Error>, steps: Steps,
    w: Publishing.PublishWorld)
    requires GenerateEnhanced(version, repo, audience, platforms, outputFile, ingested, steps, w).Success?
    ensures var r := GenerateEnhanced(version, repo, audience, platforms, outputFile, ingested, steps, w);
      var g := steps.generated.value;
      && |r.rawOutput| == |g.rawOutput| + |ModelFooter(Lookup(g.metadata, "model").value)|
      && r.rawOutput[..|g.rawOutput|] == g.rawOutput
      && r.rawOutput[|g.rawOutput|..] == ModelFooter(Lookup(g.metadata, "model").value)
  {
    var r := GenerateEnhanced(version, repo, audience, platforms, outputFile, ingested, steps, w);
    var g := steps.generated.value;
    var f := ModelFooter(Lookup(g.metadata, "model").value);
    assert r.rawOutput == g.rawOutput + f;
  }

  /**
   * The result's metadata holds generation's entries and ingestion's; on a clash the
   * ingestion value wins, so version, repo, sources and ingested_at are always ingestion's.
   */
  lemma IngestionMetadataWins(
    version: string, repo: Option<string>, audience: string, platforms: Option<seq<string>>,
    outputFile: Option<string>, ingested: Result<DataIngestion.Dataset, Error>, steps: Steps,
    w: Publishing.PublishWorld, k: string)
    requires GenerateEnhanced(version, repo, audience, platforms, outputFile, ingested, steps, w).Success?
    ensures var r := GenerateEnhanced(version, repo, audience, platforms, outputFile, ingested, steps, w);
      var im := IngestionMetadata(ingested.value.metadata);
      && (k in Keys(im) ==> Lookup(r.metadata, k) == Lookup(im, k))
      && (k !in Keys(im) ==> Lookup(r.metadata, k) == Lookup(steps.generated.value.metadata, k))
    ensures var r := GenerateEnhanced(version, repo, audience, platforms, outputFile, ingested, steps, w);
      Lookup(r.metadata, "version") == Some(JStr(ingested.value.metadata.version))
  {
    var im := IngestionMetadata(ingested.value.metadata);
    MergeLookup(steps.generated.value.metadata, im, k);
    MergeLookup(steps.generated.value.metadata, im, "version");
    if k !in Keys(im) {
      forall i | 0 <= i < |im| ensures im[i].0 != k {
        assert Keys(im)[i] == im[i].0;
      }
      LookupAbsent(im, k);
    } else {
      LookupPresent(im, k);
    }
  }

  /** A missing model entry in the generation metadata is the KeyError exit, before anything is written. */
  lemma MissingModelFails(
    version: string, repo: Option<string>, audience: string, platforms: Option<seq<string>>,
    outputFile: Option<string>, ingested: Result<DataIngestion.Dataset, Error>, steps: Steps,
    w: Publishing.PublishWorld)
    requires ingested.Ok? && Len(ingested.value.issues).Some? && steps.generated.Ok?
    requires Lookup(steps.generated.value.metadata, "model").None?
    ensures GenerateEnhanced(version, repo, audience, platforms, outputFile, ingested, steps, w) == Failure(KeyError("model"), version)
  {
  }
}
