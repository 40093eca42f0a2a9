/**
 * The forge's issue listing: the query built from the filters, the closed-since filter
 * applied to every page, and the milestone lookup.
 */
module FetchIssues {
  import opened Outcomes
  import opened Errors
  import opened Environment
  import opened Text
  import opened JsonValue
  import opened Paging

  /** A milestone of the forge's milestone listing. */
  datatype Milestone = Milestone(title: string, number: int)

  /** Python's str.isdigit() on ASCII text: non-empty and all digits. */
  predicate IsDigits(s: string) {
    s != [] && forall i :: 0 <= i < |s| ==> IsDigit(s[i])
  }

  /**
   * The milestone test as the source parses it: the conditional expression takes the
   * whole disjunction, so a name that is not all digits yields None and never matches.
   */
  predicate MilestoneMatches(m: Milestone, milestone: string) {
    IsDigits(milestone) && (m.title == milestone || m.number == ParseNat(milestone))
  }

  /** The number of the first matching milestone, if any. */
  function FirstMatch(ms: seq<Milestone>, milestone: string): (r: Option<int>)
    ensures r.Some? ==> exists i :: 0 <= i < |ms| && MilestoneMatches(ms[i], milestone) && r.value == ms[i].number
  {
    if ms == [] then None
    else if MilestoneMatches(ms[0], milestone) then Some(ms[0].number)
    else FirstMatch(ms[1..], milestone)
  }

  /** The milestone number is the one of the earliest match; no match leaves it out. */
  lemma {:induction false} FirstMatchIsEarliest(ms: seq<Milestone>, milestone: string, i: nat)
    requires i < |ms| && MilestoneMatches(ms[i], milestone)
    requires forall j :: 0 <= j < i ==> !MilestoneMatches(ms[j], milestone)
    ensures FirstMatch(ms, milestone) == Some(ms[i].number)
  {
    if i > 0 {
      forall j | 0 <= j < i - 1
        ensures !MilestoneMatches(ms[1..][j], milestone)
      {
        assert ms[1..][j] == ms[j + 1];
      }
      FirstMatchIsEarliest(ms[1..], milestone, i - 1);
    }
  }

  /** A milestone name that is not all digits never selects a milestone. */
  lemma {:induction false} NonDigitMilestoneNeverMatches(ms: seq<Milestone>, milestone: string)
    requires !IsDigits(milestone)
    ensures FirstMatch(ms, milestone) == None
  {
    if ms != [] {
      NonDigitMilestoneNeverMatches(ms[1..], milestone);
    }
  }

  /** The `for m in milestones: if …: params['milestone'] = m['number']; break` loop. */
  method SelectMilestone(ms: seq<Milestone>, milestone: string) returns (number: Option<int>)
    ensures number == FirstMatch(ms, milestone)
  {
    number := None;
    var i := 0;
    while i < |ms|
      invariant 0 <= i <= |ms|
      invariant FirstMatch(ms, milestone) == FirstMatch(ms[i..], milestone)
    {
      assert ms[i..][1..] == ms[i + 1..];
      if MilestoneMatches(ms[i], milestone) {
        number := Some(ms[i].number);
        break;
      }
      i := i + 1;
    }
    if number.None? {
      assert ms[i..] == [];
    }
  }

  /**
   * fetch_milestones: the source reads the undefined name WORKING_TOKEN before any
   * request, so every call raises NameError.
   */
  function FetchMilestones(repo: string, token: Option<string>, env: Env): (r: Result<seq<Milestone>, Error>)
    ensures r.Err? && r.error.NameError?
  {
    Err(NameError("WORKING_TOKEN"))
  }

  /** The listing URL of a repository's issues. */
  function IssuesUrl(repo: string): string {
    "https://api.github.com/repos/" + repo + "/issues"
  }

  /**
   * The first request's query: state, 100 per page, newest update first; the milestone
   * number when one was selected, the labels joined by commas when the list is
   * non-empty, the assignee when given.
   */
  function IssueParams(state: string, milestone: Option<int>, labels: Option<seq<string>>, assignee: Option<string>)
    : (p: map<string, Param>)
    ensures "state" in p && p["state"] == PStr(state) && "per_page" in p && p["per_page"] == PInt(100)
    ensures "sort" in p && p["sort"] == PStr("updated") && "direction" in p && p["direction"] == PStr("desc")
    ensures ("milestone" in p <==> milestone.Some?) && (milestone.Some? ==> p["milestone"] == PInt(milestone.value))
    ensures ("labels" in p <==> labels.Some? && labels.value != [])
    ensures "labels" in p ==> p["labels"] == PStr(Join(labels.value, ","))
    ensures ("assignee" in p <==> Given(assignee)) && (Given(assignee) ==> p["assignee"] == PStr(assignee.value))
    ensures p.Keys <= {"state", "per_page", "sort", "direction", "milestone", "labels", "assignee"}
  {
    var p0 := map["state" := PStr(state), "per_page" := PInt(100), "sort" := PStr("updated"), "direction" := PStr("desc")];
    var p1 := if milestone.Some? then p0["milestone" := PInt(milestone.value)] else p0;
    var p2 := if labels.Some? && labels.value != [] then p1["labels" := PStr(Join(labels.value, ","))] else p1;
    if Given(assignee) then p2["assignee" := PStr(assignee.value)] else p2
  }

  /**
   * A parsed timestamp: its place on the time line (UTC for an aware time, the wall
   * clock for a naive one) and whether it carries a UTC offset.
   */
  datatype Stamp = Stamp(at: int, aware: bool)

  /** The message of the TypeError Python raises when comparing a naive and an aware datetime. */
  const MixedOffsets := "can't compare offset-naive and offset-aware datetimes"

  /**
   * An issue's closing time: None when `closed_at` is absent or falsy; a non-dict issue,
   * a non-string value or an unparsable timestamp raises. `instant` is the parse of
   * datetime.fromisoformat after the `Z` rewrite, None when it raises.
   */
  function ClosedAt(issue: Json, instant: string -> Option<Stamp>): (r: Result<Option<Stamp>, Error>)
    ensures r.Ok? && r.value.Some? ==>
      issue.JObj? && "closed_at" in issue.fields && issue.fields["closed_at"].JStr? &&
      instant(issue.fields["closed_at"].s) == r.value
  {
    if !issue.JObj? then Err(AttributeError("object has no attribute 'get'"))
    else
      var closed := Field(issue.fields, "closed_at", JNull);
      if !Truthy(closed) then Ok(None)
      else if !closed.JStr? then Err(AttributeError("object has no attribute 'replace'"))
      else if instant(closed.s).None? then Err(ValueError("Invalid isoformat string"))
      else Ok(instant(closed.s))
  }

  /** Kept by the since filter: closed at or after `since` (inclusive), both times naive or both aware. */
  predicate ClosedSince(issue: Json, since: Stamp, instant: string -> Option<Stamp>) {
    var c := ClosedAt(issue, instant);
    c.Ok? && c.value.Some? && c.value.value.aware == since.aware && c.value.value.at >= since.at
  }

  /**
   * The filter's test of one issue: whether it is kept, or the exception raised on the
   * way; a naive closing time against an aware `since`, or the reverse, raises TypeError.
   */
  function Passes(issue: Json, since: Stamp, instant: string -> Option<Stamp>): (r: Result<bool, Error>)
    ensures r.Ok? ==> ClosedAt(issue, instant).Ok?
    ensures r == Ok(true) <==> ClosedSince(issue, since, instant)
    ensures (ClosedAt(issue, instant).Ok? && ClosedAt(issue, instant).value.Some? &&
             ClosedAt(issue, instant).value.value.aware != since.aware) ==> r == Err(TypeError(MixedOffsets))
  {
    match ClosedAt(issue, instant)
    case Err(e) => Err(e)
    case Ok(c) =>
      if c.None? then Ok(false)
      else if c.value.aware != since.aware then Err(TypeError(MixedOffsets))
      else Ok(c.value.at >= since.at)
  }

  /** The filter over one page, in page order; the first issue that raises ends it. */
  function KeepClosedSince(items: seq<Json>, since: Stamp, instant: string -> Option<Stamp>): Result<seq<Json>, Error>
    decreases |items|
  {
    if items == [] then Ok([])
    else match KeepClosedSince(items[..|items| - 1], since, instant)
      case Err(e) => Err(e)
      case Ok(kept) =>
        var last := items[|items| - 1];
        match Passes(last, since, instant)
        case Err(e) => Err(e)
        case Ok(b) => Ok(if b then kept + [last] else kept)
  }

  /**
   * The filter succeeds exactly when no issue raises (in particular when no closing time
   * differs from `since` in carrying an offset), and then keeps exactly the issues closed
   * at or after `since`.
   */
  lemma {:induction false} KeepClosedSinceSpec(items: seq<Json>, since: Stamp, instant: string -> Option<Stamp>)
    ensures KeepClosedSince(items, since, instant).Ok? <==> forall i :: 0 <= i < |items| ==> Passes(items[i], since, instant).Ok?
    ensures KeepClosedSince(items, since, instant).Ok? ==>
      var kept := KeepClosedSince(items, since, instant).value;
      |kept| <= |items| &&
      (forall x :: x in kept ==> x in items && ClosedSince(x, since, instant)) &&
      (forall i :: 0 <= i < |items| && ClosedSince(items[i], since, instant) ==> items[i] in kept)
    decreases |items|
  {
    if items != [] {
      var init := items[..|items| - 1];
      KeepClosedSinceSpec(init, since, instant);
      assert forall i :: 0 <= i < |init| ==> init[i] == items[i];
      var r := KeepClosedSince(items, since, instant);
      if r.Ok? {
        forall i | 0 <= i < |items| && ClosedSince(items[i], since, instant)
          ensures items[i] in r.value
        {
          if i < |init| {
            assert init[i] == items[i];
          }
        }
      }
    }
  }

  /** A page holding an aware closing time, filtered against a naive `since`, raises TypeError. */
  lemma MixedOffsetsRaise(items: seq<Json>, since: Stamp, instant: string -> Option<Stamp>, i: nat)
    requires i < |items| && !since.aware
    requires ClosedAt(items[i], instant).Ok? && ClosedAt(items[i], instant).value.Some?
    requires ClosedAt(items[i], instant).value.value.aware
    ensures KeepClosedSince(items, since, instant).Err?
  {
    KeepClosedSinceSpec(items, since, instant);
  }

  /** The `for issue in data:` filter loop of one page. */
  method FilterClosedSince(items: seq<Json>, since: Stamp, instant: string -> Option<Stamp>)
    returns (r: Result<seq<Json>, Error>)
    ensures r == KeepClosedSince(items, since, instant)
  {
    var filtered: seq<Json> := [];
    var i := 0;
    while i < |items|
      invariant 0 <= i <= |items|
      invariant KeepClosedSince(items[..i], since, instant) == Ok(filtered)
    {
      assert items[..i + 1][..i] == items[..i];
      var c := Passes(items[i], since, instant);
      if c.Err? {
        assert KeepClosedSince(items[..i + 1], since, instant) == Err(c.error);
        KeepStopsAtError(items, i + 1, since, instant);
        assert items[..|items|] == items;
        return Err(c.error);
      }
      if c.value {
        filtered := filtered + [items[i]];
      }
      i := i + 1;
    }
    assert items[..i] == items;
    r := Ok(filtered);
  }

  /** Once a prefix raises, the filter over any longer prefix raises the same error. */
  lemma {:induction false} KeepStopsAtError(items: seq<Json>, n: nat, since: Stamp, instant: string -> Option<Stamp>)
    requires n <= |items| && KeepClosedSince(items[..n], since, instant).Err?
    ensures KeepClosedSince(items, since, instant) == KeepClosedSince(items[..n], since, instant)
    decreases |items| - n
  {
    if n < |items| {
      assert items[..n + 1][..n] == items[..n];
      KeepStopsAtError(items, n + 1, since, instant);
    } else {
      assert items[..n] == items;
    }
  }

  /**
   * What each page contributes: every issue without `since`; with `since`, the page
   * filter against its parsed instant, which raises first when `since` does not parse.
   */
  function PageFilter(since: Option<string>, instant: string -> Option<Stamp>): seq<Json> -> Result<seq<Json>, Error> {
    items =>
      if !Given(since) then Ok(items)
      else if instant(since.value).None? then Err(ValueError("Invalid isoformat string"))
      else KeepClosedSince(items, instant(since.value).value, instant)
  }

  /** One page of the loop body: the `if since:` branch with its filter loop, or every issue. */
  method ProcessPage(since: Option<string>, instant: string -> Option<Stamp>, data: seq<Json>)
    returns (r: Result<seq<Json>, Error>)
    ensures r == PageFilter(since, instant)(data)
  {
    if Given(since) {
      var sinceDate := instant(since.value);
      if sinceDate.None? {
        return Err(ValueError("Invalid isoformat string"));
      }
      r := FilterClosedSince(data, sinceDate.value, instant);
    } else {
      r := Ok(data);
    }
  }

  /**
   * What fetch_github_issues does: no token raises; a milestone name triggers the
   * milestone lookup, which raises; otherwise the listing is followed from its first
   * page with the query of IssueParams, each page passing through PageFilter.
   */
  function GithubIssues(
    repo: string, token: Option<string>, env: Env, state: string, milestone: Option<string>,
    labels: Option<seq<string>>, since: Option<string>, assignee: Option<string>,
    instant: string -> Option<Stamp>, pages: seq<Response<Json>>): Run<Json>
  {
    var tok := TokenOrEnv(token, env);
    if !Given(tok) then Run([], Err(ValueError(NoTokenMessage)))
    else if Given(milestone) then Run([], Err(FetchMilestones(repo, tok, env).error))
    else Follow(IssuesUrl(repo), IssueParams(state, None, labels, assignee), pages, PageFilter(since, instant), None, [], [])
  }

  /** The items of every answered page whose status is not a failure, in page order. */
  function Served(pages: seq<Response<Json>>): seq<Json> {
    if pages == [] then []
    else (if pages[0].Ok? && !FailingStatus(pages[0].value.status) then pages[0].value.items else []) + Served(pages[1..])
  }

  /** Without `since`, a page contributes all of its items. */
  lemma {:induction false} GatherUnfiltered(pages: seq<Response<Json>>, instant: string -> Option<Stamp>)
    ensures Gather(pages, PageFilter(None, instant)) == Served(pages)
  {
    if pages != [] {
      GatherUnfiltered(pages[1..], instant);
    }
  }

  /** With a non-empty, parsable `since`, every issue a run of pages contributes was closed at or after it. */
  lemma {:induction false} GatherClosedSince(pages: seq<Response<Json>>, since: string, instant: string -> Option<Stamp>)
    requires since != "" && instant(since).Some?
    ensures forall x :: x in Gather(pages, PageFilter(Some(since), instant)) ==> ClosedSince(x, instant(since).value, instant)
  {
    if pages != [] {
      GatherClosedSince(pages[1..], since, instant);
      var f := PageFilter(Some(since), instant);
      var head := if Clean(pages[0], f) then f(pages[0].value.items).value else [];
      assert Gather(pages, f) == head + Gather(pages[1..], f);
      if Clean(pages[0], f) {
        assert f(pages[0].value.items) == KeepClosedSince(pages[0].value.items, instant(since).value, instant);
        KeepClosedSinceSpec(pages[0].value.items, instant(since).value, instant);
      }
    }
  }

  /**
   * Without `since`, when the listing ends normally after `n` pages the issues are every
   * one of those pages' items, in page order.
   */
  lemma IssuesWithoutSince(
    repo: string, token: Option<string>, env: Env, state: string, labels: Option<seq<string>>,
    assignee: Option<string>, instant: string -> Option<Stamp>, pages: seq<Response<Json>>, n: nat)
    requires Given(TokenOrEnv(token, env))
    requires CompletesAt(pages, PageFilter(None, instant), n)
    ensures GithubIssues(repo, token, env, state, None, labels, None, assignee, instant, pages).outcome == Ok(Served(pages[..n]))
  {
    FollowGathers(IssuesUrl(repo), IssueParams(state, None, labels, assignee), pages, PageFilter(None, instant), [], [], n);
    GatherUnfiltered(pages[..n], instant);
    assert [] + Served(pages[..n]) == Served(pages[..n]);
  }

  /**
   * With a non-empty, parsable `since`, when the listing ends normally every issue returned was
   * closed at or after `since`.
   */
  lemma IssuesSinceKept(
    repo: string, token: Option<string>, env: Env, state: string, labels: Option<seq<string>>,
    since: string, assignee: Option<string>, instant: string -> Option<Stamp>, pages: seq<Response<Json>>, n: nat)
    requires Given(TokenOrEnv(token, env)) && since != "" && instant(since).Some?
    requires CompletesAt(pages, PageFilter(Some(since), instant), n)
    ensures var out := GithubIssues(repo, token, env, state, None, labels, Some(since), assignee, instant, pages).outcome;
      out.Ok? && forall x :: x in out.value ==> ClosedSince(x, instant(since).value, instant)
  {
    FollowGathers(IssuesUrl(repo), IssueParams(state, None, labels, assignee), pages, PageFilter(Some(since), instant), [], [], n);
    GatherClosedSince(pages[..n], since, instant);
    assert [] + Gather(pages[..n], PageFilter(Some(since), instant)) == Gather(pages[..n], PageFilter(Some(since), instant));
  }

  /**
   * fetch_github_issues: follows the `next` links, adding every page's (filtered) issues
   * in order; the query is sent only with the first request.
   */
  method FetchGithubIssues(
    repo: string, token: Option<string>, env: Env, state: string, milestone: Option<string>,
    labels: Option<seq<string>>, since: Option<string>, assignee: Option<string>,
    instant: string -> Option<Stamp>, pages: seq<Response<Json>>)
    returns (r: Result<seq<Json>, Error>, sent: seq<Request>)
    ensures Run(sent, r) == GithubIssues(repo, token, env, state, milestone, labels, since, assignee, instant, pages)
  {
    var tok := TokenOrEnv(token, env);
    if !Given(tok) {
      return Err(ValueError(NoTokenMessage)), [];
    }
    if Given(milestone) {
      // fetch_milestones raises before it returns, so the selection loop is never reached
      var listing := FetchMilestones(repo, tok, env);
      return Err(listing.error), [];
    }
    r, sent := FollowIssues(IssuesUrl(repo), IssueParams(state, None, labels, assignee), since, instant, pages);
  }

  /** The `while url:` loop of fetch_github_issues, from the first URL and query. */
  method FollowIssues(
    url0: string, params0: map<string, Param>, since: Option<string>, instant: string -> Option<Stamp>,
    pages: seq<Response<Json>>)
    returns (r: Result<seq<Json>, Error>, sent: seq<Request>)
    ensures Run(sent, r) == Follow(url0, params0, pages, PageFilter(since, instant), None, [], [])
  {
    var url: Option<string> := Some(url0);
    var params := params0;
    ghost var run := Follow(url.value, params, pages, PageFilter(since, instant), None, [], []);
    var issues: seq<Json> := [];
    var k := 0;
    sent := [];
    assert pages[k..] == pages;
    while url.Some? && k < |pages|
      invariant 0 <= k <= |pages|
      invariant url.Some? ==> run == Follow(url.value, params, pages[k..], PageFilter(since, instant), None, issues, sent)
      invariant url.None? ==> run == Run(sent, Ok(issues))
      decreases |pages| - k
    {
      FollowAt(url.value, params, pages, k, PageFilter(since, instant), None, issues, sent);
      sent := sent + [Request(url.value, params)];
      var response := pages[k];
      if response.Err? {
        return Err(response.error), sent;
      }
      if FailingStatus(response.value.status) {
        return Err(HttpError(response.value.status)), sent;
      }
      var contribution := ProcessPage(since, instant, response.value.items);
      if contribution.Err? {
        return Err(contribution.error), sent;
      }
      issues := issues + contribution.value;
      if response.value.next.Some? {
        url := response.value.next;
        params := map[];
      } else {
        url := None;
      }
      k := k + 1;
    }
    if url.Some? {
      assert pages[k..] == [];
    }
    r := Ok(issues);
  }
}
