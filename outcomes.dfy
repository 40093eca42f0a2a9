/** The two wrappers in which every abstracted call outcome is expressed. */
module Outcomes {

  /** A value that may be absent: Python's None, a missing key, a null field. */
  datatype Option<+T> = None | Some(value: T)

  /** The outcome of a call that may raise: Ok carries the return value, Err the exception. */
  datatype Result<+T, +E> = Ok(value: T) | Err(error: E)

  /** Python truthiness of an optional string: None and "" are both falsy. */
  predicate Given(o: Option<string>) {
    o.Some? && o.value != ""
  }

  /**
   * A loop that applies `f` to each element in order and collects the results; the first
   * element on which `f` raises ends it with that exception.
   */
  function MapAll<T, U, E>(xs: seq<T>, f: T -> Result<U, E>): Result<seq<U>, E>
    decreases |xs|
  {
    if xs == [] then Ok([])
    else
      var done := MapAll(xs[..|xs| - 1], f);
      if done.Err? then done
      else
        var y := f(xs[|xs| - 1]);
        if y.Err? then Err(y.error) else Ok(done.value + [y.value])
  }

  /**
   * The loop succeeds exactly when `f` succeeds on every element, and then it holds one
   * result per element, in order.
   */
  lemma {:induction false} MapAllEach<T, U, E>(xs: seq<T>, f: T -> Result<U, E>)
    ensures MapAll(xs, f).Ok? <==> forall i :: 0 <= i < |xs| ==> f(xs[i]).Ok?
    ensures MapAll(xs, f).Ok? ==>
      |MapAll(xs, f).value| == |xs| && forall i :: 0 <= i < |xs| ==> MapAll(xs, f).value[i] == f(xs[i]).value
    decreases |xs|
  {
    if xs != [] {
      var init := xs[..|xs| - 1];
      MapAllEach(init, f);
      assert forall i :: 0 <= i < |init| ==> init[i] == xs[i];
    }
  }

  /** The loop itself: `for x in xs: out.append(f(x))`, ending at the first element on which `f` raises. */
  method MapEach<T, U, E>(xs: seq<T>, f: T -> Result<U, E>) returns (r: Result<seq<U>, E>)
    ensures r == MapAll(xs, f)
  {
    var out: seq<U> := [];
    var i := 0;
    while i < |xs|
      invariant 0 <= i <= |xs|
      invariant MapAll(xs[..i], f) == Ok(out)
    {
      assert xs[..i + 1][..i] == xs[..i];
      var y := f(xs[i]);
      if y.Err? {
        MapAllStopsAtError(xs, i + 1, f);
        return Err(y.error);
      }
      out := out + [y.value];
      i := i + 1;
    }
    assert xs[..i] == xs;
    r := Ok(out);
  }

  /** Once a prefix raises, the loop over any longer prefix raises the same exception. */
  lemma {:induction false} MapAllStopsAtError<T, U, E>(xs: seq<T>, n: nat, f: T -> Result<U, E>)
    requires n <= |xs| && MapAll(xs[..n], f).Err?
    ensures MapAll(xs, f) == MapAll(xs[..n], f)
    decreases |xs| - n
  {
    if n < |xs| {
      assert xs[..n + 1][..n] == xs[..n];
      MapAllStopsAtError(xs, n + 1, f);
    } else {
      assert xs[..n] == xs;
    }
  }
}

/** Python dicts with string keys, as their entries in insertion order. */
module Dicts {
  import opened Outcomes

  type Dict<V> = seq<(string, V)>

  function Keys<V>(d: Dict<V>): (ks: seq<string>)
    ensures |ks| == |d| && forall i :: 0 <= i < |d| ==> ks[i] == d[i].0
  {
    seq(|d|, i requires 0 <= i < |d| => d[i].0)
  }

  /** `d[k] = v`: an existing key keeps its place and takes the new value; a new key goes last. */
  function Put<V>(d: Dict<V>, k: string, v: V): (r: Dict<V>)
    ensures k !in Keys(d) ==> r == d + [(k, v)]
    decreases |d|
  {
    if d == [] then [(k, v)]
    else if d[0].0 == k then [(k, v)] + d[1..]
    else
      assert Keys(d)[1..] == Keys(d[1..]);
      [d[0]] + Put(d[1..], k, v)
  }

  /** Overwriting an existing key changes neither the keys nor their order. */
  lemma {:induction false} PutKeepsKeys<V>(d: Dict<V>, k: string, v: V)
    requires k in Keys(d)
    ensures Keys(Put(d, k, v)) == Keys(d)
    decreases |d|
  {
    if d[0].0 != k {
      assert Keys(d)[1..] == Keys(d[1..]);
      PutKeepsKeys(d[1..], k, v);
      var rest := Put(d[1..], k, v);
      assert Put(d, k, v) == [d[0]] + rest;
      assert Keys([d[0]] + rest) == [d[0].0] + Keys(rest);
    }
  }

  /** `d.get(k)`: the value of the first entry with key `k`. */
  function Lookup<V>(d: Dict<V>, k: string): Option<V>
    decreases |d|
  {
    if d == [] then None else if d[0].0 == k then Some(d[0].1) else Lookup(d[1..], k)
  }

  /** After `d[k] = v`, looking up `k` gives `v`, and every other key keeps its value. */
  lemma {:induction false} PutThenLookup<V>(d: Dict<V>, k: string, v: V, other: string)
    ensures Lookup(Put(d, k, v), k) == Some(v)
    ensures other != k ==> Lookup(Put(d, k, v), other) == Lookup(d, other)
    decreases |d|
  {
    if d != [] && d[0].0 != k {
      PutThenLookup(d[1..], k, v, other);
      var rest := Put(d[1..], k, v);
      assert Put(d, k, v) == [d[0]] + rest;
      assert ([d[0]] + rest)[1..] == rest;
    }
  }

  /** No key occurs twice, as in any dict. */
  predicate UniqueKeys<V>(d: Dict<V>) {
    forall i, j :: 0 <= i < j < |d| ==> d[i].0 != d[j].0
  }

  /** `{**a, **b}`: the entries of `b` put into `a` in order. */
  function Merge<V>(a: Dict<V>, b: Dict<V>): Dict<V>
    decreases |b|
  {
    if b == [] then a else Merge(Put(a, b[0].0, b[0].1), b[1..])
  }

  /** In `{**a, **b}` a key of `b` takes `b`'s value; any other key keeps `a`'s. */
  lemma {:induction false} MergeLookup<V>(a: Dict<V>, b: Dict<V>, k: string)
    requires UniqueKeys(b)
    ensures Lookup(Merge(a, b), k) == if Lookup(b, k).Some? then Lookup(b, k) else Lookup(a, k)
    decreases |b|
  {
    if b != [] {
      var rest := b[1..];
      assert UniqueKeys(rest) by {
        forall i, j | 0 <= i < j < |rest| ensures rest[i].0 != rest[j].0 {
          assert rest[i] == b[i + 1] && rest[j] == b[j + 1];
        }
      }
      MergeLookup(Put(a, b[0].0, b[0].1), rest, k);
      PutThenLookup(a, b[0].0, b[0].1, k);
      if k == b[0].0 {
        LookupAbsent(rest, k);
      }
    }
  }

  /** A key that some entry carries is found. */
  lemma {:induction false} LookupPresent<V>(d: Dict<V>, k: string)
    requires k in Keys(d)
    ensures Lookup(d, k).Some?
    decreases |d|
  {
    if d[0].0 != k {
      var i :| 0 <= i < |d| && Keys(d)[i] == k;
      assert Keys(d[1..])[i - 1] == k;
      LookupPresent(d[1..], k);
    }
  }

  /** A key that no entry carries is not found. */
  lemma {:induction false} LookupAbsent<V>(d: Dict<V>, k: string)
    requires forall i :: 0 <= i < |d| ==> d[i].0 != k
    ensures Lookup(d, k).None?
    decreases |d|
  {
    if d != [] {
      LookupAbsent(d[1..], k);
    }
  }
}

/** The exceptions the core raises or catches, one constructor per kind of raise site. */
module Errors {
  import opened Outcomes

  datatype Error =
    | ValueError(message: string)          // raise ValueError("...") with a fixed text
    | Raised(message: string)              // raise Exception("...") with a fixed text
    | HttpError(status: int)               // response.raise_for_status() on a 4xx/5xx status
    | Transport(message: string)           // a failed request, process or file access (opaque)
    | NameError(name: string)              // a reference to an undefined global name
    | TypeError(message: string)
    | AttributeError(message: string)    // `.get` called on a value that is not a dict
    | KeyError(key: string)
    | ApiStatus(status: int)               // "GitHub API returned <status>: <text>"
    | Unauthorized                         // "Unauthorized (401): Invalid or missing GITHUB_TOKEN"
    | EndpointsFailed(lastStatus: Option<int>)  // "All API endpoints failed. Last status: <status or Unknown>"
    | ConfluenceFailed(cause: Error)       // "Confluence publishing failed: <cause>"
    | UnsupportedPlatform(name: string)    // "Unsupported platform: <name>"
    | Plain(message: string)               // an error entry that is a plain text, not an exception

  /** The message of the ValueError every forge fetcher raises when it has no token. */
  const NoTokenMessage := "GITHUB_TOKEN not provided and not found in environment variables (.env.local)"

  /** requests' raise_for_status(): it raises exactly for the 4xx and 5xx statuses. */
  predicate FailingStatus(status: int) {
    400 <= status < 600
  }
}

/** The process environment, passed in as an immutable map from names to values. */
module Environment {
  import opened Outcomes

  type Env = map<string, string>

  /** os.getenv(key): the value when the name is set (possibly empty), None otherwise. */
  function Getenv(env: Env, key: string): Option<string> {
    if key in env then Some(env[key]) else None
  }

  /** os.getenv(key, default): the default only when the name is not set at all. */
  function GetenvOr(env: Env, key: string, default: string): string {
    if key in env then env[key] else default
  }

  /** The fetchers' `if not token: token = env('GITHUB_TOKEN')`. */
  function TokenOrEnv(token: Option<string>, env: Env): Option<string> {
    if Given(token) then token else Getenv(env, "GITHUB_TOKEN")
  }
}
