/**
 * The forge's page-following loops (`while url: get; raise_for_status; …; url = next`).
 * The environment answers the k-th request with `pages[k]`; the Link header's `next`
 * entry is an abstract option on each page. When the supplied answers run out the loop
 * is taken to end there.
 */
module Paging {
  import opened Outcomes
  import opened Errors

  /** A query parameter value. */
  datatype Param = PInt(i: int) | PStr(s: string)

  /** One GET request: the URL and its query parameters. */
  datatype Request = Request(url: string, params: map<string, Param>)

  /** An answered request: the status, the decoded list body and the `next` link. */
  datatype Page<T> = Page(status: int, items: seq<T>, next: Option<string>)

  /** A single answered request without paging: the status and the decoded body. */
  datatype Reply<T> = Reply(status: int, body: T)

  /** A request that completed, or the exception the request itself raised. */
  type Response<T> = Result<Page<T>, Error>

  /** What a page-following loop did: the requests it sent and what it returned or raised. */
  datatype Run<U> = Run(sent: seq<Request>, outcome: Result<seq<U>, Error>)

  /**
   * The loop from `url` with `params`, having gathered `acc` and sent `sent` so far.
   * Each answer is checked by raise_for_status, then its items are processed by `f`
   * (which may raise); the contribution is appended, the loop moves to the `next` link
   * without parameters, and it stops when there is none or when `cap` items are gathered.
   */
  function Follow<T, U>(
    url: string, params: map<string, Param>, pages: seq<Response<T>>,
    f: seq<T> -> Result<seq<U>, Error>, cap: Option<nat>, acc: seq<U>, sent: seq<Request>): Run<U>
    decreases |pages|
  {
    if pages == [] then Run(sent, Ok(acc))
    else
      var sentNow := sent + [Request(url, params)];
      if pages[0].Err? then Run(sentNow, Err(pages[0].error))
      else
        var p := pages[0].value;
        if FailingStatus(p.status) then Run(sentNow, Err(HttpError(p.status)))
        else if f(p.items).Err? then Run(sentNow, Err(f(p.items).error))
        else
          var gathered := acc + f(p.items).value;
          if p.next.None? || (cap.Some? && |gathered| >= cap.value) then Run(sentNow, Ok(gathered))
          else Follow(p.next.value, map[], pages[1..], f, cap, gathered, sentNow)
  }

  /** The loop unfolded at the k-th answer, for the loop invariants of the adapters. */
  lemma FollowAt<T, U>(
    url: string, params: map<string, Param>, pages: seq<Response<T>>, k: nat,
    f: seq<T> -> Result<seq<U>, Error>, cap: Option<nat>, acc: seq<U>, sent: seq<Request>)
    requires k < |pages|
    ensures Follow(url, params, pages[k..], f, cap, acc, sent) ==
      var sentNow := sent + [Request(url, params)];
      if pages[k].Err? then Run(sentNow, Err(pages[k].error))
      else
        var p := pages[k].value;
        if FailingStatus(p.status) then Run(sentNow, Err(HttpError(p.status)))
        else if f(p.items).Err? then Run(sentNow, Err(f(p.items).error))
        else
          var gathered := acc + f(p.items).value;
          if p.next.None? || (cap.Some? && |gathered| >= cap.value) then Run(sentNow, Ok(gathered))
          else Follow(p.next.value, map[], pages[k + 1..], f, cap, gathered, sentNow)
  {
    assert pages[k..][0] == pages[k];
    assert pages[k..][1..] == pages[k + 1..];
  }

  /** An answer the loop gets past: the request completed, its status passed, and its items were processed. */
  predicate Clean<T, U>(r: Response<T>, f: seq<T> -> Result<seq<U>, Error>) {
    r.Ok? && !FailingStatus(r.value.status) && f(r.value.items).Ok?
  }

  /** The exception the loop raises at an answer it cannot get past, in the order of the checks. */
  function FailureOf<T, U>(r: Response<T>, f: seq<T> -> Result<seq<U>, Error>): Error
    requires !Clean(r, f)
  {
    if r.Err? then r.error
    else if FailingStatus(r.value.status) then HttpError(r.value.status)
    else f(r.value.items).error
  }

  /** The contributions of the answers, concatenated in page order (an answer not got past adds nothing). */
  function Gather<T, U>(pages: seq<Response<T>>, f: seq<T> -> Result<seq<U>, Error>): seq<U> {
    if pages == [] then []
    else (if Clean(pages[0], f) then f(pages[0].value.items).value else []) + Gather(pages[1..], f)
  }

  /**
   * The first `n` answers are got past, each but the last links to a next page, and the
   * n-th has no `next` link (or the answers run out there).
   */
  predicate CompletesAt<T, U>(pages: seq<Response<T>>, f: seq<T> -> Result<seq<U>, Error>, n: nat) {
    && n <= |pages|
    && (forall i :: 0 <= i < n ==> Clean(pages[i], f))
    && (forall i :: 0 <= i < n - 1 ==> pages[i].Ok? && pages[i].value.next.Some?)
    && (n == |pages| || (0 < n && pages[n - 1].Ok? && pages[n - 1].value.next.None?))
  }

  /** The first `n` answers are got past and link onwards, and the next one is not got past. */
  predicate FailsAt<T, U>(pages: seq<Response<T>>, f: seq<T> -> Result<seq<U>, Error>, n: nat) {
    && n < |pages|
    && (forall i :: 0 <= i < n ==> Clean(pages[i], f) && pages[i].value.next.Some?)
    && !Clean(pages[n], f)
  }

  /**
   * Without a cap, a run that gets past every answer up to the last page returns what
   * it had gathered followed by every page's contribution in page order, after one
   * request per page.
   */
  lemma {:induction false} FollowGathers<T, U>(
    url: string, params: map<string, Param>, pages: seq<Response<T>>,
    f: seq<T> -> Result<seq<U>, Error>, acc: seq<U>, sent: seq<Request>, n: nat)
    requires CompletesAt(pages, f, n)
    ensures Follow(url, params, pages, f, None, acc, sent).outcome == Ok(acc + Gather(pages[..n], f))
    ensures |Follow(url, params, pages, f, None, acc, sent).sent| == |sent| + n
    decreases |pages|
  {
    if pages == [] {
      assert pages[..n] == [];
      assert acc + Gather(pages[..n], f) == acc + [] == acc;
    } else {
      assert n > 0;
      var p := pages[0].value;
      var xs := f(p.items).value;
      assert pages[..n][0] == pages[0];
      assert pages[..n][1..] == pages[1..][..n - 1];
      assert Gather(pages[..n], f) == xs + Gather(pages[1..][..n - 1], f);
      if p.next.None? {
        assert n == 1;
        assert pages[1..][..0] == [];
        assert Gather(pages[..n], f) == xs + [];
        assert acc + Gather(pages[..n], f) == acc + xs;
        assert Follow(url, params, pages, f, None, acc, sent) == Run(sent + [Request(url, params)], Ok(acc + xs));
      } else {
        assert CompletesAt(pages[1..], f, n - 1) by {
          forall i | 0 <= i < n - 1 ensures Clean(pages[1..][i], f) {
            assert pages[1..][i] == pages[i + 1];
          }
          forall i | 0 <= i < n - 2 ensures pages[1..][i].Ok? && pages[1..][i].value.next.Some? {
            assert pages[1..][i] == pages[i + 1];
          }
          if n - 1 != |pages[1..]| {
            assert pages[1..][n - 2] == pages[n - 1];
          }
        }
        FollowGathers(p.next.value, map[], pages[1..], f, acc + xs, sent + [Request(url, params)], n - 1);
        assert acc + xs + Gather(pages[1..][..n - 1], f) == acc + (xs + Gather(pages[1..][..n - 1], f));
      }
    }
  }

  /**
   * A run whose first `n` answers are got past and link onwards, and whose next answer is
   * not, raises that answer's exception after `n + 1` requests, whatever the cap.
   */
  lemma {:induction false} FollowFails<T, U>(
    url: string, params: map<string, Param>, pages: seq<Response<T>>,
    f: seq<T> -> Result<seq<U>, Error>, acc: seq<U>, sent: seq<Request>, n: nat)
    requires FailsAt(pages, f, n)
    ensures Follow(url, params, pages, f, None, acc, sent).outcome == Err(FailureOf(pages[n], f))
    ensures |Follow(url, params, pages, f, None, acc, sent).sent| == |sent| + n + 1
    decreases |pages|
  {
    if n > 0 {
      var p := pages[0].value;
      assert FailsAt(pages[1..], f, n - 1) by {
        forall i | 0 <= i < n - 1 ensures Clean(pages[1..][i], f) && pages[1..][i].value.next.Some? {
          assert pages[1..][i] == pages[i + 1];
        }
        assert pages[1..][n - 1] == pages[n];
      }
      FollowFails(p.next.value, map[], pages[1..], f, acc + f(p.items).value, sent + [Request(url, params)], n - 1);
    }
  }

  /**
   * What was sent and gathered before is kept in front: every request of the run is
   * sent after the earlier ones, at most one per answer, and on success the items
   * gathered earlier lead the result.
   */
  lemma {:induction false} FollowKeepsEarlier<T, U>(
    url: string, params: map<string, Param>, pages: seq<Response<T>>,
    f: seq<T> -> Result<seq<U>, Error>, cap: Option<nat>, acc: seq<U>, sent: seq<Request>)
    ensures |sent| <= |Follow(url, params, pages, f, cap, acc, sent).sent| <= |sent| + |pages|
    ensures Follow(url, params, pages, f, cap, acc, sent).sent[..|sent|] == sent
    ensures Follow(url, params, pages, f, cap, acc, sent).outcome.Ok? ==>
      |acc| <= |Follow(url, params, pages, f, cap, acc, sent).outcome.value| &&
      Follow(url, params, pages, f, cap, acc, sent).outcome.value[..|acc|] == acc
    decreases |pages|
  {
    if pages != [] && pages[0].Ok? && !FailingStatus(pages[0].value.status) && f(pages[0].value.items).Ok? {
      var p := pages[0].value;
      var xs := f(p.items).value;
      var sentNow := sent + [Request(url, params)];
      if !(p.next.None? || (cap.Some? && |acc + xs| >= cap.value)) {
        FollowKeepsEarlier(p.next.value, map[], pages[1..], f, cap, acc + xs, sentNow);
        var r := Follow(p.next.value, map[], pages[1..], f, cap, acc + xs, sentNow);
        assert r.sent[..|sent|] == r.sent[..|sentNow|][..|sent|];
        if r.outcome.Ok? {
          assert r.outcome.value[..|acc|] == r.outcome.value[..|acc + xs|][..|acc|];
        }
      } else {
        assert (sent + [Request(url, params)])[..|sent|] == sent;
        assert (acc + xs)[..|acc|] == acc;
      }
    } else if pages != [] {
      assert (sent + [Request(url, params)])[..|sent|] == sent;
    }
  }

  /**
   * The first request of a run goes to `url` with `params`; every later one carries no
   * parameters and goes to the `next` link of the answer before it.
   */
  lemma {:induction false} FollowRequests<T, U>(
    url: string, params: map<string, Param>, pages: seq<Response<T>>,
    f: seq<T> -> Result<seq<U>, Error>, cap: Option<nat>, acc: seq<U>, sent: seq<Request>)
    ensures pages != [] ==>
      |Follow(url, params, pages, f, cap, acc, sent).sent| > |sent| &&
      Follow(url, params, pages, f, cap, acc, sent).sent[|sent|] == Request(url, params)
    ensures forall i :: |sent| < i < |Follow(url, params, pages, f, cap, acc, sent).sent| ==>
      Follow(url, params, pages, f, cap, acc, sent).sent[i].params == map[]
    ensures forall j :: 0 <= j < |Follow(url, params, pages, f, cap, acc, sent).sent| - |sent| - 1 ==>
      j < |pages| && pages[j].Ok? && pages[j].value.next.Some? &&
      Follow(url, params, pages, f, cap, acc, sent).sent[|sent| + j + 1].url == pages[j].value.next.value
    decreases |pages|
  {
    FollowKeepsEarlier(url, params, pages, f, cap, acc, sent);
    var r := Follow(url, params, pages, f, cap, acc, sent);
    if pages != [] {
      var sentNow := sent + [Request(url, params)];
      if pages[0].Ok? && !FailingStatus(pages[0].value.status) && f(pages[0].value.items).Ok? {
        var p := pages[0].value;
        var xs := f(p.items).value;
        if !(p.next.None? || (cap.Some? && |acc + xs| >= cap.value)) {
          FollowRequests(p.next.value, map[], pages[1..], f, cap, acc + xs, sentNow);
          FollowKeepsEarlier(p.next.value, map[], pages[1..], f, cap, acc + xs, sentNow);
          assert r.sent[|sent|] == r.sent[..|sentNow|][|sent|] == Request(url, params);
          forall j | 0 <= j < |r.sent| - |sent| - 1
            ensures j < |pages| && pages[j].Ok? && pages[j].value.next.Some? &&
              r.sent[|sent| + j + 1].url == pages[j].value.next.value
          {
            if j > 0 {
              assert pages[j] == pages[1..][j - 1];
              assert |sentNow| + (j - 1) + 1 == |sent| + j + 1;
            }
          }
        }
      }
    }
  }

  /** An answer that, when it is processed successfully, contributes at least one item. */
  ghost predicate Contributes<T, U>(r: Response<T>, f: seq<T> -> Result<seq<U>, Error>) {
    r.Ok? && f(r.value.items).Ok? ==> |f(r.value.items).value| >= 1
  }

  /**
   * With a cap, paging stops once the cap is reached: when every answer contributes,
   * no more requests are sent than items were still wanted.
   */
  lemma {:induction false} FollowStopsAtCap<T, U>(
    url: string, params: map<string, Param>, pages: seq<Response<T>>,
    f: seq<T> -> Result<seq<U>, Error>, cap: nat, acc: seq<U>, sent: seq<Request>)
    requires |acc| < cap
    requires forall i :: 0 <= i < |pages| ==> Contributes(pages[i], f)
    ensures |Follow(url, params, pages, f, Some(cap), acc, sent).sent| <= |sent| + (cap - |acc|)
    decreases |pages|
  {
    if pages != [] && pages[0].Ok? && !FailingStatus(pages[0].value.status) && f(pages[0].value.items).Ok? {
      var p := pages[0].value;
      var xs := f(p.items).value;
      assert Contributes(pages[0], f);
      if !(p.next.None? || |acc + xs| >= cap) {
        forall i | 0 <= i < |pages[1..]|
          ensures Contributes(pages[1..][i], f)
        {
          assert pages[1..][i] == pages[i + 1];
        }
        FollowStopsAtCap(p.next.value, map[], pages[1..], f, cap, acc + xs, sent + [Request(url, params)]);
      }
    }
  }
}
