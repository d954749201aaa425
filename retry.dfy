/**
 * The rate-limited retry caller and the process-wide API call counter
 * (pipeline/utils.py).
 *
 * The statistics service is an oracle: `World(n, req)` is the reply to the
 * n-th attempt the process makes, n counted from zero by the call counter,
 * when that attempt asks `req`.  A reply either fails (any exception the
 * endpoint raises) or yields the endpoint's tables.
 */
module Retry {
  import opened Frames
  import Config

  /** One request: the endpoint's name and the parameters it is given. */
  datatype Request = Request(endpoint: string, params: map<string, Cell>)

  /** What one attempt produces. */
  datatype Reply = Fail | Ok(tables: seq<Frame>)

  type World = (nat, Request) -> Reply

  /** What the retry caller hands back: the endpoint's tables, or the
      `RuntimeError` raised once every attempt has failed. */
  datatype Outcome = Raised | Returned(tables: seq<Frame>)

  function Pow(b: nat, e: nat): nat
    decreases e
  {
    if e == 0 then 1 else b * Pow(b, e - 1)
  }

  /** The waits `base * multiplier^i` for i = 0 .. n-1 (none when n <= 0). */
  function Backoffs(base: nat, n: int): (ws: seq<nat>)
    ensures |ws| == if n <= 0 then 0 else n
    ensures forall i :: 0 <= i < |ws| ==> ws[i] == base * Pow(Config.ApiBackoffMultiplier, i)
  {
    if n <= 0 then [] else seq(n, i requires 0 <= i < n => base * Pow(Config.ApiBackoffMultiplier, i))
  }

  /** Attempt number `n`, asking `req`, fails. */
  predicate Fails(world: World, n: nat, req: Request)
  {
    world(n, req).Fail?
  }

  /** Every attempt numbered `from` up to (not including) `to` fails. */
  predicate AllFail(world: World, from: nat, to: nat, req: Request)
  {
    forall n :: from <= n < to ==> Fails(world, n, req)
  }

  /**
   * The offset of the first successful attempt among the `n` attempts that
   * start at counter value `start`, or `n` when all of them fail.
   */
  function FirstOk(world: World, start: nat, req: Request, n: nat): (k: nat)
    ensures k <= n
    ensures AllFail(world, start, start + k, req)
    ensures k < n ==> world(start + k, req).Ok?
    decreases n
  {
    if n == 0 || world(start, req).Ok? then 0
    else 1 + FirstOk(world, start + 1, req, n - 1)
  }

  /** The first-success offset is the only one with its two properties. */
  lemma FirstOkUnique(world: World, start: nat, req: Request, n: nat, k: nat)
    requires k <= n && AllFail(world, start, start + k, req)
    requires k < n ==> world(start + k, req).Ok?
    ensures FirstOk(world, start, req, n) == k
  {
    var f := FirstOk(world, start, req, n);
    if f < k {
      FailsWithin(world, start, start + k, req, start + f);
      assert false;
    } else if f > k {
      FailsWithin(world, start, start + f, req, start + k);
      assert false;
    }
  }

  /** One attempt inside a failing range fails. */
  lemma FailsWithin(world: World, from: nat, to: nat, req: Request, n: nat)
    requires AllFail(world, from, to, req) && from <= n < to
    ensures Fails(world, n, req)
  {
  }

  /** The result of one retry call, the attempts it made and the waits it slept. */
  datatype RetryRun = RetryRun(outcome: Outcome, attempts: nat, waits: seq<nat>)

  /**
   * `api_call_with_retry(endpoint, params, retries, base_delay)` started when
   * the call counter reads `start`: the first successful attempt among the
   * first `retries` returns its tables, otherwise the call raises; the
   * waits are the backoffs slept after every failure but the last attempt.
   */
  function Retry(world: World, start: nat, req: Request, retries: int, base: nat): (run: RetryRun)
  {
    if retries <= 0 then RetryRun(Raised, 0, [])
    else
      var k := FirstOk(world, start, req, retries);
      if k < retries then RetryRun(Returned(world(start + k, req).tables), k + 1, Backoffs(base, k))
      else RetryRun(Raised, retries, Backoffs(base, retries - 1))
  }

  /**
   * What a retry call does.  Every attempt counts once; a call that
   * succeeds after k failures makes k + 1 attempts and returns that
   * attempt's tables; a call whose attempts all fail makes exactly
   * `retries` of them and raises, never returning a value; the caller
   * sleeps only between attempts, `base * 2^i` after failure i, never after
   * the last one; with `retries <= 0` nothing is attempted and it raises.
   */
  lemma RetrySpec(world: World, start: nat, req: Request, retries: int, base: nat)
    ensures var run := Retry(world, start, req, retries, base);
            && (retries <= 0 ==> run == RetryRun(Raised, 0, []))
            && (retries > 0 ==> 1 <= run.attempts <= retries)
            && (run.attempts > 0 ==> AllFail(world, start, start + run.attempts - 1, req))
            && (run.outcome.Returned? ==> world(start + run.attempts - 1, req) == Ok(run.outcome.tables))
            && (run.outcome.Raised? ==> run.attempts == (if retries <= 0 then 0 else retries))
            && (run.outcome.Raised? ==> AllFail(world, start, start + run.attempts, req))
            && (run.attempts > 0 ==> |run.waits| == run.attempts - 1)
            && run.waits == Backoffs(base, |run.waits|)
  {
  }

  /** A call that fails k times and then succeeds, within its attempts, returns that success after k + 1 attempts. */
  lemma SucceedsAfterFailures(world: World, start: nat, req: Request, retries: int, base: nat, k: nat)
    requires k < retries
    requires AllFail(world, start, start + k, req)
    requires world(start + k, req).Ok?
    ensures Retry(world, start, req, retries, base)
         == RetryRun(Returned(world(start + k, req).tables), k + 1, Backoffs(base, k))
  {
    FirstOkUnique(world, start, req, retries, k);
  }

  /** A call whose `retries` attempts all fail raises after all of them, with a wait between each two. */
  lemma ExhaustedRaises(world: World, start: nat, req: Request, retries: int, base: nat)
    requires retries > 0 && AllFail(world, start, start + retries, req)
    ensures Retry(world, start, req, retries, base) == RetryRun(Raised, retries, Backoffs(base, retries - 1))
  {
    FirstOkUnique(world, start, req, retries, retries);
  }

  /** The backoffs of one more failure: those before it, then its own. */
  lemma BackoffsSnoc(base: nat, n: nat)
    ensures Backoffs(base, n) + [base * Pow(Config.ApiBackoffMultiplier, n)] == Backoffs(base, n + 1)
  {
  }

  /** The default settings: an exhausted call sleeps 3, 6, 12 and 24 seconds and makes 5 attempts. */
  lemma DefaultExhaustion(world: World, start: nat, req: Request)
    requires AllFail(world, start, start + Config.ApiRetries, req)
    ensures Retry(world, start, req, Config.ApiRetries, Config.ApiBaseDelay)
         == RetryRun(Raised, 5, [3, 6, 12, 24])
  {
    FirstOkUnique(world, start, req, Config.ApiRetries, Config.ApiRetries);
    assert Backoffs(3, 4) == [3, 6, 12, 24] by {
      assert Pow(2, 1) == 2 && Pow(2, 2) == 4 && Pow(2, 3) == 8;
    }
  }

  /** The request of the health check: a 5-man Base, Totals, regular-season lineup query. */
  function HealthRequest(season: string): Request
  {
    Request("LeagueDashLineups",
            map["group_quantity" := Num(5), "measure_type_detailed_defense" := Str("Base"),
                "per_mode_detailed" := Str("Totals"), "season" := Str(season),
                "season_type_all_star" := Str("Regular Season")])
  }

  /**
   * The process-wide state the fetchers share: the API call counter and a
   * record of the sleeps taken (backoff waits in seconds, `pace()` calls, and
   * the longer pauses between endpoints).
   */
  class Api {
    const world: World
    var calls: nat
    var waits: seq<nat>
    var paces: nat
    var pauses: nat

    constructor (world: World)
      ensures this.world == world && calls == 0 && waits == [] && paces == 0 && pauses == 0
    {
      this.world := world;
      calls, waits, paces, pauses := 0, [], 0, 0;
    }

    /** `get_api_call_count()`: the number of attempts made so far. */
    function CallCount(): (n: nat)
      reads this
      ensures n == calls
    {
      calls
    }

    /** `_increment_api_call_count()`. */
    method IncrementCallCount()
      modifies this`calls
      ensures calls == old(calls) + 1
    {
      calls := calls + 1;
    }

    /** `pace()`: one short sleep between consecutive calls. */
    method Pace()
      modifies this`paces
      ensures paces == old(paces) + 1
    {
      paces := paces + 1;
    }

    /** `time.sleep(API_ENDPOINT_DELAY)`: one longer pause. */
    method Pause()
      modifies this`pauses
      ensures pauses == old(pauses) + 1
    {
      pauses := pauses + 1;
    }

    /**
     * `api_call_with_retry`: attempt `req` up to `retries` times, counting
     * every attempt before the endpoint is invoked and sleeping the backoff
     * wait after each failure but the last.
     */
    method CallWithRetry(req: Request, retries: int, baseDelay: nat) returns (r: Outcome)
      modifies this`calls, this`waits
      ensures var run := Retry(world, old(calls), req, retries, baseDelay);
              r == run.outcome && calls == old(calls) + run.attempts && waits == old(waits) + run.waits
    {
      var attempt: nat := 0;
      while attempt < retries
        invariant if retries > 0 then attempt < retries else attempt == 0
        invariant calls == old(calls) + attempt
        invariant AllFail(world, old(calls), old(calls) + attempt, req)
        invariant waits == old(waits) + Backoffs(baseDelay, attempt)
        decreases retries - attempt
      {
        IncrementCallCount();
        var reply := world(calls - 1, req);
        if reply.Ok? {
          SucceedsAfterFailures(world, old(calls), req, retries, baseDelay, attempt);
          return Returned(reply.tables);
        }
        var wait := baseDelay * Pow(Config.ApiBackoffMultiplier, attempt);
        if attempt < retries - 1 {
          BackoffsSnoc(baseDelay, attempt);
          waits := waits + [wait];
        } else {
          ExhaustedRaises(world, old(calls), req, retries, baseDelay);
          return Raised;
        }
        attempt := attempt + 1;
      }
      return Raised;
    }

    /**
     * `health_check(season)`: one retry call with 3 attempts and a 2-second
     * base wait; reachable means the call returned, whatever it returned
     * (a reply with no rows still counts as healthy).
     */
    method HealthCheck(season: string) returns (healthy: bool)
      modifies this`calls, this`waits
      ensures var run := Retry(world, old(calls), HealthRequest(season), 3, 2);
              healthy == run.outcome.Returned? && calls == old(calls) + run.attempts
              && waits == old(waits) + run.waits
    {
      var r := CallWithRetry(HealthRequest(season), 3, 2);
      healthy := r.Returned?;
    }
  }
}
