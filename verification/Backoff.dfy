/** Rate limit and retries of drive calls (src/apps/drive/backoff.py, src/apps/drive/google_adapter.py, _execute).
  * Times are reals; the clock does not run backwards and a sleep lasts at least as long as asked. */
module Backoff {
  import opened Wrappers

  // ---------------------------------------------------------------- the token bucket

  datatype Limits = Limits(rate: real, capacity: int)

  /** At least one request per 1000 seconds; a burst of 0 counts as none given. */
  function LimitsFor(ratePerSecond: real, burst: Option<int>): (l: Limits)
    ensures l.rate >= 0.001
    ensures l.capacity >= 1 <==> burst.None? || burst.value >= 0
  {
    var rate := if ratePerSecond >= 0.001 then ratePerSecond else 0.001;
    Limits(rate, if burst.Some? && burst.value != 0 then burst.value else if rate.Floor > 1 then rate.Floor else 1)
  }

  datatype Bucket = Bucket(tokens: real, last: real)

  function Min(a: real, b: real): real { if a <= b then a else b }

  function Filled(l: Limits, b: Bucket, now: real): real {
    Min(l.capacity as real, b.tokens + (now - b.last) * l.rate)
  }

  /** What an acquire waits for. */
  function Wait(l: Limits, b: Bucket, now: real): real
    requires l.rate > 0.0
  {
    if Filled(l, b, now) >= 1.0 then 0.0 else (1.0 - Filled(l, b, now)) / l.rate
  }

  /** `woken` is the clock after the sleep, if there was one. */
  function Acquired(l: Limits, b: Bucket, now: real, woken: real): Bucket
    requires l.rate > 0.0
  {
    if Filled(l, b, now) >= 1.0 then Bucket(Filled(l, b, now) - 1.0, now) else Bucket(0.0, woken)
  }

  /** The clock as an acquire may see it. */
  ghost predicate Timely(l: Limits, b: Bucket, now: real, woken: real)
    requires l.rate > 0.0
  {
    now >= b.last && woken >= now + Wait(l, b, now)
  }

  class RateLimiter {
    const limits: Limits
    var tokens: real
    var last: real

    ghost predicate Valid() { limits.rate > 0.0 }

    function State(): Bucket
      reads this
    {
      Bucket(tokens, last)
    }

    constructor (ratePerSecond: real, burst: Option<int>, now: real)
      ensures Valid() && limits == LimitsFor(ratePerSecond, burst) && State() == Bucket(limits.capacity as real, now)
    {
      var l := LimitsFor(ratePerSecond, burst);
      limits := l;
      tokens := l.capacity as real;
      last := now;
    }

    method Acquire(now: real, woken: real) returns (wait: real)
      requires Valid()
      modifies this
      ensures State() == Acquired(limits, old(State()), now, woken) && wait == Wait(limits, old(State()), now)
    {
      tokens := Min(limits.capacity as real, tokens + (now - last) * limits.rate);
      last := now;
      assert tokens == Filled(limits, old(State()), now);
      hide Filled;
      if tokens >= 1.0 {
        tokens := tokens - 1.0;
        return 0.0;
      }
      wait := (1.0 - tokens) / limits.rate;
      tokens := 0.0;
      last := woken;
    }
  }

  // ---------------------------------------------------------------- whole runs

  /** One acquire: the clock when it starts and the clock after its sleep. */
  datatype Request = Request(now: real, woken: real)

  function Run(l: Limits, b: Bucket, reqs: seq<Request>): Bucket
    requires l.rate > 0.0
    decreases |reqs|
  {
    if reqs == [] then b else Run(l, Acquired(l, b, reqs[0].now, reqs[0].woken), reqs[1..])
  }

  ghost predicate Clocked(l: Limits, b: Bucket, reqs: seq<Request>)
    requires l.rate > 0.0
    decreases |reqs|
  {
    reqs != [] ==>
      Timely(l, b, reqs[0].now, reqs[0].woken) && Clocked(l, Acquired(l, b, reqs[0].now, reqs[0].woken), reqs[1..])
  }

  ghost predicate Sane(l: Limits, b: Bucket) {
    0.0 <= b.tokens <= l.capacity as real
  }

  /** What the bucket gains in the time between two states. */
  function Gain(l: Limits, start: Bucket, end: Bucket): real { (end.last - start.last) * l.rate }

  lemma WaitTimesRate(x: real, rate: real)
    requires rate > 0.0
    ensures (x / rate) * rate == x
  {
  }

  lemma Scaled(a: real, b: real, rate: real)
    requires rate >= 0.0 && a <= b
    ensures a * rate <= b * rate
  {
  }

  /** An acquire takes one token out of what the elapsed time put in. */
  lemma AcquireSpends(l: Limits, b: Bucket, now: real, woken: real)
    requires l.rate > 0.0 && l.capacity >= 1 && Sane(l, b) && Timely(l, b, now, woken)
    ensures var c := Acquired(l, b, now, woken);
      && Sane(l, c) && c.tokens <= l.capacity as real - 1.0 && b.last <= c.last
      && c.tokens + 1.0 <= b.tokens + (c.last - b.last) * l.rate
  {
    Scaled(0.0, now - b.last, l.rate);
    if Filled(l, b, now) < 1.0 {
      WaitTimesRate(1.0 - Filled(l, b, now), l.rate);
      Scaled(Wait(l, b, now), woken - now, l.rate);
      assert (woken - b.last) * l.rate == (woken - now) * l.rate + (now - b.last) * l.rate;
    }
  }

  /** A run of n acquires spends n tokens, and the elapsed time times the rate is all that came in. */
  lemma {:induction false} RunSpends(l: Limits, b: Bucket, reqs: seq<Request>)
    requires l.rate > 0.0 && l.capacity >= 1 && Sane(l, b) && Clocked(l, b, reqs)
    ensures var c := Run(l, b, reqs);
      Sane(l, c) && b.last <= c.last && c.tokens + |reqs| as real <= b.tokens + Gain(l, b, c)
    decreases |reqs|
  {
    hide Acquired, Timely;
    if reqs != [] {
      var mid := Acquired(l, b, reqs[0].now, reqs[0].woken);
      AcquireSpends(l, b, reqs[0].now, reqs[0].woken);
      RunSpends(l, mid, reqs[1..]);
      Elapsed(b.last, mid.last, Run(l, b, reqs).last, l.rate);
    }
  }

  lemma Elapsed(a: real, b: real, c: real, rate: real)
    ensures (c - a) * rate == (c - b) * rate + (b - a) * rate
  {
  }

  /** So many requests are no more than the burst and the elapsed time allow. */
  ghost predicate Within(l: Limits, requests: nat, start: Bucket, end: Bucket) {
    requests as real <= l.capacity as real + Gain(l, start, end)
  }

  /** Between two acquires, both counted, at most capacity + rate x elapsed time requests are issued, wherever in a run
    * the two stand and whatever came before. */
  lemma WindowBound(l: Limits, b: Bucket, before: seq<Request>, first: Request, rest: seq<Request>)
    requires l.rate > 0.0 && l.capacity >= 1 && Sane(l, b) && Clocked(l, b, before + [first] + rest)
    ensures Within(l, 1 + |rest|, Run(l, b, before + [first]), Run(l, b, before + [first] + rest))
  {
    hide Acquired, Timely, Run, Clocked, Sane, Within;
    Split(l, b, before, [first] + rest);
    Split(l, b, before, [first]);
    assert before + [first] + rest == before + ([first] + rest);
    var mid := Run(l, b, before);
    StaysSane(l, b, before);
    One(l, mid, first, rest);
    TakesOne(l, mid, first);
    var start := Acquired(l, mid, first.now, first.woken);
    assert Run(l, b, before + [first]) == start && Run(l, b, before + [first] + rest) == Run(l, start, rest);
    FromFirst(l, start, rest);
  }

  lemma StaysSane(l: Limits, b: Bucket, reqs: seq<Request>)
    requires l.rate > 0.0 && l.capacity >= 1 && Sane(l, b) && Clocked(l, b, reqs)
    ensures Sane(l, Run(l, b, reqs))
  {
    RunSpends(l, b, reqs);
  }

  lemma TakesOne(l: Limits, b: Bucket, first: Request)
    requires l.rate > 0.0 && l.capacity >= 1 && Sane(l, b) && Timely(l, b, first.now, first.woken)
    ensures var c := Acquired(l, b, first.now, first.woken); Sane(l, c) && c.tokens <= l.capacity as real - 1.0
  {
    AcquireSpends(l, b, first.now, first.woken);
  }

  lemma FromFirst(l: Limits, start: Bucket, rest: seq<Request>)
    requires l.rate > 0.0 && l.capacity >= 1 && Sane(l, start) && start.tokens <= l.capacity as real - 1.0 && Clocked(l, start, rest)
    ensures Within(l, 1 + |rest|, start, Run(l, start, rest))
  {
    hide Clocked, Run, Gain;
    RunSpends(l, start, rest);
    assert (1 + |rest|) as real == 1.0 + |rest| as real;
  }

  lemma One(l: Limits, b: Bucket, first: Request, rest: seq<Request>)
    requires l.rate > 0.0
    ensures Run(l, b, [first]) == Acquired(l, b, first.now, first.woken)
    ensures Run(l, b, [first] + rest) == Run(l, Acquired(l, b, first.now, first.woken), rest)
    ensures Clocked(l, b, [first] + rest) ==> Timely(l, b, first.now, first.woken) && Clocked(l, Acquired(l, b, first.now, first.woken), rest)
  {
    hide Acquired, Timely;
    assert ([first] + rest)[1..] == rest && [first][1..] == [];
  }

  lemma {:induction false} Split(l: Limits, b: Bucket, x: seq<Request>, y: seq<Request>)
    requires l.rate > 0.0
    ensures Run(l, b, x + y) == Run(l, Run(l, b, x), y)
    ensures Clocked(l, b, x + y) <==> Clocked(l, b, x) && Clocked(l, Run(l, b, x), y)
    decreases |x|
  {
    hide Acquired, Timely;
    if x == [] {
      assert x + y == y;
    } else {
      assert (x + y)[1..] == x[1..] + y;
      Split(l, Acquired(l, b, x[0].now, x[0].woken), x[1..], y);
    }
  }

  lemma NoTime(x: real, rate: real)
    requires x == 0.0
    ensures x * rate == 0.0
  {
  }

  lemma OneAtOnce(l: Limits, b: Bucket)
    ensures Within(l, 1, b, b) <==> l.capacity >= 1
  {
    NoTime(b.last - b.last, l.rate);
  }

  /** Without room for one token the bound already fails for a single request; a negative burst brings that about. */
  lemma NegativeBurst(ratePerSecond: real, burst: Option<int>, b: Bucket)
    ensures Within(LimitsFor(ratePerSecond, burst), 1, b, b) <==> burst.None? || burst.value >= 0
  {
    hide LimitsFor, Within;
    OneAtOnce(LimitsFor(ratePerSecond, burst), b);
  }

  // ---------------------------------------------------------------- retries

  datatype Outcome = Success | RateLimited(retryAfter: Option<real>) | Transient(retryAfter: Option<real>) | AuthFailed | OtherError

  predicate Retryable(o: Outcome) { o.RateLimited? || o.Transient? }

  datatype Settings = Settings(base: real, factor: real, maxDelay: real, maxAttempts: int)

  datatype Metrics = Metrics(attempts: nat, retries: nat, rateLimited: nat, serverErrors: nat, failures: nat, waited: real)

  function Power(x: real, n: nat): real { if n == 0 then 1.0 else x * Power(x, n - 1) }

  function Cap(cfg: Settings, attempt: nat): real
    requires attempt >= 1
  {
    Min(cfg.maxDelay, cfg.base * Power(cfg.factor, attempt - 1))
  }

  /** Attempt n, counted from 1, is not the last one: it may be repeated, or the login was refreshed for it. */
  ghost predicate GoesOn(cfg: Settings, refresh: bool, outcomes: nat -> Outcome, n: nat) {
    || (Retryable(outcomes(n)) && n < cfg.maxAttempts)
    || (outcomes(n).AuthFailed? && refresh && forall k :: 1 <= k < n ==> !outcomes(k).AuthFailed?)
  }

  ghost predicate IsLast(cfg: Settings, refresh: bool, outcomes: nat -> Outcome, n: nat) {
    n >= 1 && !GoesOn(cfg, refresh, outcomes, n) && forall k :: 1 <= k < n ==> GoesOn(cfg, refresh, outcomes, k)
  }

  /** How many of the first `n` attempts met a limit on requests, and how many another passing failure. */
  function LimitsMet(outcomes: nat -> Outcome, n: nat): nat {
    if n == 0 then 0 else LimitsMet(outcomes, n - 1) + (if outcomes(n).RateLimited? then 1 else 0)
  }

  function FailuresMet(outcomes: nat -> Outcome, n: nat): nat {
    if n == 0 then 0 else FailuresMet(outcomes, n - 1) + (if outcomes(n).Transient? then 1 else 0)
  }

  lemma NothingMet(outcomes: nat -> Outcome)
    ensures LimitsMet(outcomes, 0) == FailuresMet(outcomes, 0) == 0
  {
  }

  lemma OneMoreMet(outcomes: nat -> Outcome, n: nat)
    requires n > 0
    ensures LimitsMet(outcomes, n) == LimitsMet(outcomes, n - 1) + (if outcomes(n).RateLimited? then 1 else 0)
    ensures FailuresMet(outcomes, n) == FailuresMet(outcomes, n - 1) + (if outcomes(n).Transient? then 1 else 0)
  {
  }

  function AttemptLimit(cfg: Settings): nat { if cfg.maxAttempts > 1 then cfg.maxAttempts else 1 }

  function Total(delays: seq<real>): real {
    if delays == [] then 0.0 else Total(delays[..|delays| - 1]) + delays[|delays| - 1]
  }

  /** The pause after attempt k: none after a new login, what the server asked for, or a random time up to the cap. */
  ghost predicate PauseFits(cfg: Settings, outcomes: nat -> Outcome, k: nat, delay: real)
    requires k >= 1
  {
    && (outcomes(k).AuthFailed? ==> delay == 0.0)
    && (Retryable(outcomes(k)) ==>
          match outcomes(k).retryAfter
          case Some(asked) => delay == asked
          case None => Cap(cfg, k) >= 0.0 ==> 0.0 <= delay <= Cap(cfg, k))
  }

  /** One pause after every attempt, and their sum. */
  ghost predicate Pauses(cfg: Settings, outcomes: nat -> Outcome, delays: seq<real>, waited: real) {
    waited == Total(delays) && forall k: nat :: k < |delays| ==> PauseFits(cfg, outcomes, k + 1, delays[k])
  }

  lemma OneMorePause(cfg: Settings, outcomes: nat -> Outcome, delays: seq<real>, waited: real, delay: real)
    requires Pauses(cfg, outcomes, delays, waited) && PauseFits(cfg, outcomes, |delays| + 1, delay)
    ensures Pauses(cfg, outcomes, delays + [delay], waited + delay)
  {
    hide PauseFits;
    assert (delays + [delay])[..|delays|] == delays;
  }

  lemma NoPauses(cfg: Settings, outcomes: nat -> Outcome)
    ensures Pauses(cfg, outcomes, [], 0.0)
  {
  }

  /** The requests of `n` attempts, one each. */
  function Sent(clock: nat -> Request, n: nat): (r: seq<Request>)
    ensures |r| == n
  {
    if n == 0 then [] else Sent(clock, n - 1) + [clock(n)]
  }

  /** The function that is retried: take a token, then send. `outcomes(k)` is what attempt k meets, `clock(k)` the time
    * its acquire sees. */
  class DriveCall {
    const limiter: RateLimiter
    const outcomes: nat -> Outcome
    const clock: nat -> Request
    ghost var sent: seq<Request>

    constructor (limiter: RateLimiter, outcomes: nat -> Outcome, clock: nat -> Request)
      ensures this.limiter == limiter && this.outcomes == outcomes && this.clock == clock && sent == []
    {
      this.limiter, this.outcomes, this.clock, sent := limiter, outcomes, clock, [];
    }

    method Invoke(k: nat) returns (o: Outcome)
      requires limiter.Valid()
      modifies this`sent, limiter
      ensures o == outcomes(k) && sent == old(sent) + [clock(k)]
      ensures limiter.State() == Acquired(limiter.limits, old(limiter.State()), clock(k).now, clock(k).woken)
    {
      var _ := limiter.Acquire(clock(k).now, clock(k).woken);
      sent := sent + [clock(k)];
      o := outcomes(k);
    }
  }

  /** `jitter(k)` is the random share of the pause after attempt k; `delays` lists the pauses. */
  method RetryCall(call: DriveCall, cfg: Settings, refresh: bool, jitter: nat -> real)
    returns (n: nat, m: Metrics, ghost delays: seq<real>)
    requires call.limiter.Valid() && forall k: nat :: 0.0 <= jitter(k) <= 1.0
    modifies call`sent, call.limiter
    ensures IsLast(cfg, refresh, call.outcomes, n)
    ensures n <= AttemptLimit(cfg) + 1
    ensures call.sent == old(call.sent) + Sent(call.clock, n)
    ensures call.limiter.State() == Run(call.limiter.limits, old(call.limiter.State()), Sent(call.clock, n))
    ensures m.attempts == n == m.retries + 1 + (if exists k :: 1 <= k < n && call.outcomes(k).AuthFailed? then 1 else 0)
    ensures m.failures == if call.outcomes(n).Success? then 0 else 1
    ensures m.rateLimited == LimitsMet(call.outcomes, n) && m.serverErrors == FailuresMet(call.outcomes, n)
    ensures m.rateLimited + m.serverErrors == m.retries + (if Retryable(call.outcomes(n)) then 1 else 0)
    ensures |delays| == n - 1 && Pauses(cfg, call.outcomes, delays, m.waited)
  {
    hide Acquired, Cap, Run, Pauses, PauseFits, Sent, LimitsMet, FailuresMet;
    m := Metrics(0, 0, 0, 0, 0, 0.0);
    delays := [];
    var authRetried := false;
    ghost var start, l := call.limiter.State(), call.limiter.limits;
    NothingSent(l, start, call.clock);
    NoPauses(cfg, call.outcomes);
    NothingMet(call.outcomes);
    n := 0;
    while true
      invariant forall k :: 1 <= k <= n ==> GoesOn(cfg, refresh, call.outcomes, k)
      invariant authRetried <==> exists k :: 1 <= k <= n && call.outcomes(k).AuthFailed?
      invariant authRetried ==> refresh
      invariant m.attempts == n == m.retries + (if authRetried then 1 else 0) && m.failures == 0
      invariant m.rateLimited + m.serverErrors == m.retries
      invariant m.rateLimited == LimitsMet(call.outcomes, n) && m.serverErrors == FailuresMet(call.outcomes, n)
      invariant m.retries > 0 ==> m.retries < cfg.maxAttempts
      invariant |delays| == n && Pauses(cfg, call.outcomes, delays, m.waited)
      invariant call.sent == old(call.sent) + Sent(call.clock, n) && call.limiter.State() == Run(l, start, Sent(call.clock, n))
      decreases AttemptLimit(cfg) + 1 - n
    {
      n := n + 1;
      ghost var waitedBefore := m.waited;
      m := m.(attempts := m.attempts + 1);
      var o := call.Invoke(n);
      OneMoreSent(l, start, call.clock, n);
      OneMoreMet(call.outcomes, n);
      if o.Success? { return; }
      var delay := 0.0;
      if Retryable(o) {
        m := if o.RateLimited? then m.(rateLimited := m.rateLimited + 1) else m.(serverErrors := m.serverErrors + 1);
        if n >= cfg.maxAttempts {
          m := m.(failures := 1);
          return;
        }
        delay := if o.retryAfter.Some? then o.retryAfter.value else jitter(n) * Cap(cfg, n);
        PauseIs(cfg, call.outcomes, n, jitter(n), delay);
        m := m.(retries := m.retries + 1, waited := m.waited + delay);
      } else if o.AuthFailed? && refresh && !authRetried {
        PauseIs(cfg, call.outcomes, n, jitter(n), delay);
        authRetried := true;
      } else {
        m := m.(failures := 1);
        return;
      }
      OneMorePause(cfg, call.outcomes, delays, waitedBefore, delay);
      delays := delays + [delay];
    }
  }

  lemma ShareOfCap(share: real, cap: real)
    requires 0.0 <= share <= 1.0
    ensures cap >= 0.0 ==> 0.0 <= share * cap <= cap
  {
    if cap >= 0.0 {
      Scaled(share, 1.0, cap);
      Scaled(0.0, share, cap);
    }
  }

  lemma PauseIs(cfg: Settings, outcomes: nat -> Outcome, k: nat, share: real, delay: real)
    requires k >= 1 && 0.0 <= share <= 1.0
    requires outcomes(k).AuthFailed? ==> delay == 0.0
    requires Retryable(outcomes(k)) ==> delay == if outcomes(k).retryAfter.Some? then outcomes(k).retryAfter.value else share * Cap(cfg, k)
    ensures PauseFits(cfg, outcomes, k, delay)
  {
    hide Cap;
    ShareOfCap(share, Cap(cfg, k));
  }

  lemma NothingSent(l: Limits, b: Bucket, clock: nat -> Request)
    requires l.rate > 0.0
    ensures Run(l, b, Sent(clock, 0)) == b && Sent(clock, 0) == []
  {
  }

  lemma OneMoreSent(l: Limits, b: Bucket, clock: nat -> Request, n: nat)
    requires l.rate > 0.0 && n > 0
    ensures Sent(clock, n) == Sent(clock, n - 1) + [clock(n)]
    ensures Run(l, b, Sent(clock, n)) == Acquired(l, Run(l, b, Sent(clock, n - 1)), clock(n).now, clock(n).woken)
  {
    Split(l, b, Sent(clock, n - 1), [clock(n)]);
    One(l, Run(l, b, Sent(clock, n - 1)), clock(n), []);
  }

  /** One call of the adapter: every attempt takes its own token. */
  method Execute(limiter: RateLimiter, cfg: Settings, refresh: bool, outcomes: nat -> Outcome, clock: nat -> Request, jitter: nat -> real)
    returns (n: nat, m: Metrics)
    requires limiter.Valid() && forall k: nat :: 0.0 <= jitter(k) <= 1.0
    modifies limiter
    ensures IsLast(cfg, refresh, outcomes, n) && n <= AttemptLimit(cfg) + 1
    ensures limiter.State() == Run(limiter.limits, old(limiter.State()), Sent(clock, n))
  {
    var call := new DriveCall(limiter, outcomes, clock);
    ghost var delays;
    n, m, delays := RetryCall(call, cfg, refresh, jitter);
  }

  // ---------------------------------------------------------------- any sequence of calls

  /** Told outcome by outcome: before the last attempt there was no success and no other error, every passing failure stood
    * within the limit, and at most one refused login, which was renewed; the last attempt is a success, another error, a
    * passing failure at the limit, or a login refused without renewal or for the second time. */
  lemma LastAttemptMeans(cfg: Settings, refresh: bool, outcomes: nat -> Outcome, n: nat)
    requires IsLast(cfg, refresh, outcomes, n)
    ensures forall k :: 1 <= k < n ==> !outcomes(k).Success? && !outcomes(k).OtherError? && (outcomes(k).AuthFailed? ==> refresh)
    ensures forall k :: 1 <= k < n && (outcomes(k).RateLimited? || outcomes(k).Transient?) ==> k < cfg.maxAttempts
    ensures forall j, k :: 1 <= j < k < n ==> !(outcomes(j).AuthFailed? && outcomes(k).AuthFailed?)
    ensures outcomes(n).RateLimited? || outcomes(n).Transient? ==> n >= cfg.maxAttempts
    ensures outcomes(n).AuthFailed? ==> !refresh || exists k :: 1 <= k < n && outcomes(k).AuthFailed?
  {
    forall k | 1 <= k < n
      ensures !outcomes(k).Success? && !outcomes(k).OtherError? && (outcomes(k).RateLimited? || outcomes(k).Transient? ==> k < cfg.maxAttempts)
      ensures outcomes(k).AuthFailed? ==> refresh && forall j :: 1 <= j < k ==> !outcomes(j).AuthFailed?
    {
      assert GoesOn(cfg, refresh, outcomes, k);
    }
  }

  /** The rate is the one asked for, but never below one request in 1000 seconds; the capacity is the burst asked for, and
    * without one the whole requests of a second, but at least one. */
  lemma LimitsAre(ratePerSecond: real, burst: Option<int>)
    ensures var l := LimitsFor(ratePerSecond, burst);
      && l.rate >= ratePerSecond && l.rate >= 0.001 && (l.rate == ratePerSecond || l.rate == 0.001)
      && (burst.Some? && burst.value != 0 ==> l.capacity == burst.value)
      && (burst.None? || burst.value == 0 ==> l.capacity >= 1 && l.rate < l.capacity as real + 1.0 && (l.capacity == 1 || l.capacity as real <= l.rate))
  {
  }

  /** A token that is there goes out without waiting; else the wait is just long enough for one, and the bucket is left empty.
    * The bucket never holds more than its capacity. */
  lemma AcquireMeans(l: Limits, b: Bucket, now: real, woken: real)
    requires l.rate > 0.0
    ensures var refilled := b.tokens + (now - b.last) * l.rate; var there := if refilled <= l.capacity as real then refilled else l.capacity as real;
      && (Wait(l, b, now) > 0.0 <==> there < 1.0)
      && (there < 1.0 ==> there + Wait(l, b, now) * l.rate == 1.0 && Acquired(l, b, now, woken) == Bucket(0.0, woken))
      && (there >= 1.0 ==> Wait(l, b, now) == 0.0 && Acquired(l, b, now, woken) == Bucket(there - 1.0, now))
  {
    var there := Filled(l, b, now);
    if there < 1.0 { WaitFills(1.0 - there, l.rate); }
  }

  lemma WaitFills(missing: real, rate: real)
    requires missing > 0.0 && rate > 0.0
    ensures missing / rate > 0.0 && missing / rate * rate == missing
  {
  }

  /** At most one attempt is added to the allowed ones, and only by a refreshed login. */
  lemma AttemptsBounded(cfg: Settings, refresh: bool, outcomes: nat -> Outcome, n: nat)
    requires IsLast(cfg, refresh, outcomes, n)
    ensures n <= AttemptLimit(cfg) + 1
    ensures n == AttemptLimit(cfg) + 1 ==> refresh && exists k :: 1 <= k < n && outcomes(k).AuthFailed?
  {
    if n > 1 {
      assert GoesOn(cfg, refresh, outcomes, n - 1);
      if n > 2 && outcomes(n - 1).AuthFailed? { assert GoesOn(cfg, refresh, outcomes, n - 2); }
    }
  }

  datatype Execution = Execution(outcomes: nat -> Outcome, clock: nat -> Request, attempts: nat)

  function AllSent(calls: seq<Execution>): seq<Request> {
    if calls == [] then []
    else AllSent(calls[..|calls| - 1]) + Sent(calls[|calls| - 1].clock, calls[|calls| - 1].attempts)
  }

  lemma {:induction false} SentBounded(cfg: Settings, refresh: bool, calls: seq<Execution>)
    requires forall c :: 0 <= c < |calls| ==> IsLast(cfg, refresh, calls[c].outcomes, calls[c].attempts)
    ensures |AllSent(calls)| <= |calls| * (AttemptLimit(cfg) + 1)
  {
    hide IsLast, AttemptLimit;
    if calls != [] {
      var n := |calls| - 1;
      SentBounded(cfg, refresh, calls[..n]);
      AttemptsBounded(cfg, refresh, calls[n].outcomes, calls[n].attempts);
      assert |calls| * (AttemptLimit(cfg) + 1) == n * (AttemptLimit(cfg) + 1) + (AttemptLimit(cfg) + 1);
    }
  }

  /** Over any sequence of adapter calls with their retries and renewed logins, and between any two of the requests they
    * send, the bound of the bucket holds; and the calls send no more than one request above the allowed attempts each. */
  lemma CallsBounded(l: Limits, b: Bucket, cfg: Settings, refresh: bool, calls: seq<Execution>, i: nat, j: nat)
    requires l.rate > 0.0 && l.capacity >= 1 && Sane(l, b) && Clocked(l, b, AllSent(calls))
    requires forall c :: 0 <= c < |calls| ==> IsLast(cfg, refresh, calls[c].outcomes, calls[c].attempts)
    requires i < j <= |AllSent(calls)|
    ensures Within(l, j - i, Run(l, b, AllSent(calls)[..i + 1]), Run(l, b, AllSent(calls)[..j]))
    ensures |AllSent(calls)| <= |calls| * (AttemptLimit(cfg) + 1)
  {
    hide IsLast, Within, Sane, Run, Clocked, AttemptLimit;
    var all := AllSent(calls);
    SentBounded(cfg, refresh, calls);
    assert all == all[..j] + all[j..];
    Split(l, b, all[..j], all[j..]);
    assert all[..i] + [all[i]] == all[..i + 1] && all[..i] + [all[i]] + all[i + 1..j] == all[..j];
    WindowBound(l, b, all[..i], all[i], all[i + 1..j]);
  }
}
