/**
  The rate limiter's per-client counters: four fixed windows, a token bucket refilled in
  whole tokens, and a cooldown. Instants are nanoseconds since the clock's origin.
  */
module RateLimit {
  import opened Wrappers

  const SECOND: nat := 1_000_000_000
  const MINUTE: nat := 60 * SECOND
  const HOUR: nat := 3600 * SECOND
  const DAY: nat := 86400 * SECOND
  const MILLI: nat := 1_000_000
  const MAX_TRACKED_CLIENTS: nat := 100_000

  datatype Limit = Limit(perSecond: nat, perMinute: nat, perHour: nat, perDay: nat, cooldown: nat, burst: nat)

  datatype RateError = GlobalRateExceeded | UnknownOperation | CooldownActive | BurstExceeded | RateExceeded

  /** A count and the instant its window was opened. */
  datatype Bucket = Bucket(count: nat, last: nat)

  datatype Counter = Counter(second: Bucket, minute: Bucket, hour: Bucket, day: Bucket,
                             cooldownUntil: Option<nat>, tokens: nat, lastRefill: nat)

  /** A new client's refill instant lies a minute back, unless the clock is younger than that. */
  function NewCounter(now: nat): Counter {
    Counter(Bucket(0, now), Bucket(0, now), Bucket(0, now), Bucket(0, now), None, 0,
            if now >= MINUTE then now - MINUTE else now)
  }

  function Since(now: nat, earlier: nat): nat { if now >= earlier then now - earlier else 0 }

  function Roll(b: Bucket, period: nat, now: nat): Bucket { if Since(now, b.last) >= period then Bucket(0, now) else b }

  function UpdateCounters(c: Counter, now: nat): Counter {
    c.(second := Roll(c.second, SECOND, now), minute := Roll(c.minute, MINUTE, now),
       hour := Roll(c.hour, HOUR, now), day := Roll(c.day, DAY, now))
  }

  /** `n` times `k` as a sum, so that the steps of a counter hold no non-linear term. */
  function Product(n: nat, k: nat): nat
    decreases k
  {
    if k == 0 then 0 else n + Product(n, k - 1)
  }

  lemma {:induction false} ProductIs(n: nat, k: nat)
    ensures Product(n, k) == n * k
    decreases k
  {
    if k > 0 {
      ProductIs(n, k - 1);
    }
  }

  lemma ProductAdds(a: nat, b: nat, k: nat)
    ensures Product(a + b, k) == Product(a, k) + Product(b, k)
  {
    ProductIs(a, k);
    ProductIs(b, k);
    ProductIs(a + b, k);
    assert (a + b) * k == a * k + b * k;
  }

  /** Truncation to 32 bits and wrapping multiplication, as the machine computes it. */
  function TokensToAdd(elapsed: nat, burst: nat): nat { (Product((elapsed / MILLI) % U32, burst) % U32) / 1000 }

  function RefillTokens(c: Counter, limit: Limit, now: nat): Counter {
    var add := TokensToAdd(Since(now, c.lastRefill), limit.burst);
    if add > 0 then c.(tokens := Min((c.tokens + add) % U32, limit.burst), lastRefill := now) else c
  }

  function LimitHit(c: Counter, limit: Limit): bool {
    || c.second.count >= limit.perSecond || c.minute.count >= limit.perMinute
    || c.hour.count >= limit.perHour || c.day.count >= limit.perDay
  }

  function Spend(c: Counter): Counter
    requires c.tokens > 0
  {
    c.(second := c.second.(count := c.second.count + 1), minute := c.minute.(count := c.minute.count + 1),
       hour := c.hour.(count := c.hour.count + 1), day := c.day.(count := c.day.count + 1), tokens := c.tokens - 1)
  }

  datatype Checked = Checked(counter: Counter, error: Option<RateError>)

  /** The client part of a check; `blocked` is an error already found by the global part. */
  function CheckCounter(c: Counter, limit: Limit, now: nat, blocked: Option<RateError>): Checked {
    var cooling := c.cooldownUntil.Some? && now < c.cooldownUntil.value;
    var c1 := if c.cooldownUntil.Some? && !cooling then c.(cooldownUntil := None) else c;
    var c2 := RefillTokens(UpdateCounters(c1, now), limit, now);
    var error :=
      if blocked.Some? then blocked
      else if cooling then Some(CooldownActive)
      else if c2.tokens == 0 then Some(BurstExceeded)
      else if LimitHit(c2, limit) then Some(RateExceeded)
      else None;
    if error.Some? then Checked(c2.(cooldownUntil := Some(now + limit.cooldown)), error)
    else Checked(Spend(c2), None)
  }

  function QueryCounter(c: Counter, limit: Limit, now: nat): Counter { RefillTokens(UpdateCounters(c, now), limit, now) }

  // ---------------------------------------------------------------- runs of one client

  datatype Call = Check(now: nat, blocked: Option<RateError>) | Query(now: nat)

  function StepCounter(c: Counter, limit: Limit, call: Call): Counter {
    match call
    case Check(now, blocked) => CheckCounter(c, limit, now, blocked).counter
    case Query(now) => QueryCounter(c, limit, now)
  }

  function After(c: Counter, limit: Limit, calls: seq<Call>): Counter
    decreases |calls|
  {
    if calls == [] then c else StepCounter(After(c, limit, calls[..|calls| - 1]), limit, calls[|calls| - 1])
  }

  predicate SucceedsFrom(c: Counter, limit: Limit, call: Call) {
    call.Check? && CheckCounter(c, limit, call.now, call.blocked).error.None?
  }

  /** The instants of the successful checks, in order. */
  function SuccessTimes(c: Counter, limit: Limit, calls: seq<Call>): seq<nat>
    decreases |calls|
  {
    if calls == [] then []
    else
      var front, last := calls[..|calls| - 1], calls[|calls| - 1];
      if SucceedsFrom(After(c, limit, front), limit, last) then SuccessTimes(c, limit, front) + [last.now]
      else SuccessTimes(c, limit, front)
  }

  /** How many instants lie in [low, high). */
  function CountIn(times: seq<nat>, low: int, high: int): nat
    decreases |times|
  {
    if times == [] then 0
    else
      CountIn(times[..|times| - 1], low, high) + (if low <= times[|times| - 1] < high then 1 else 0)
  }

  /** Of these calls `n` succeed. */
  predicate Pays(c: Counter, limit: Limit, calls: seq<Call>, n: nat) { |SuccessTimes(c, limit, calls)| == n }

  predicate Ordered(calls: seq<Call>, start: nat) {
    && (forall i :: 0 <= i < |calls| ==> start <= calls[i].now)
    && (forall i, j :: 0 <= i < j < |calls| ==> calls[i].now <= calls[j].now)
  }

  function LastInstant(calls: seq<Call>, start: nat): nat { if calls == [] then start else calls[|calls| - 1].now }

  // ---------------------------------------------------------------- the token bucket

  lemma MulMonotone(a: nat, b: nat, k: nat)
    requires a <= b
    ensures a * k <= b * k
  {
  }

  /** Rounding, truncation and wrap-around only ever lose tokens. */
  lemma TokensBounded(elapsed: nat, burst: nat)
    ensures SECOND * TokensToAdd(elapsed, burst) <= elapsed * burst
  {
    var ms := elapsed / MILLI;
    var product := (ms % U32) * burst;
    ProductIs(ms % U32, burst);
    MulMonotone(ms % U32, ms, burst);
    assert product % U32 <= product;
    assert 1000 * TokensToAdd(elapsed, burst) <= product <= ms * burst;
    MulMonotone(ms * MILLI, elapsed, burst);
    assert MILLI * (ms * burst) == (ms * MILLI) * burst;
  }

  /** `spent` is at most what was there plus the span's worth of tokens, one burst a second. */
  predicate Within(spent: nat, credit: nat, burst: nat, span: nat) { SECOND * spent <= SECOND * credit + Product(span, burst) }

  lemma WithinAdd(spent: nat, add: nat, credit: nat, burst: nat, span: nat, more: nat)
    requires Within(spent, credit, burst, span) && SECOND * add <= Product(more, burst)
    ensures Within(spent + add, credit, burst, span + more)
  {
    ProductAdds(span, more, burst);
  }

  lemma WithinLess(spent: nat, less: nat, credit: nat, burst: nat, span: nat, more: nat)
    requires Within(spent, credit, burst, span) && less <= spent && span <= more
    ensures Within(less, credit, burst, more)
  {
    ProductAdds(span, more - span, burst);
  }

  lemma WithinCredit(spent: nat, credit: nat, burst: nat, span: nat)
    requires spent <= credit
    ensures Within(spent, credit, burst, span)
  {
  }

  /** Since `base`, when `credit` tokens were there, no more than Within has been handed out or is left. */
  ghost predicate Credited(c: Counter, limit: Limit, successes: nat, credit: nat, base: nat) {
    && base <= c.lastRefill && c.tokens <= limit.burst
    && Within(successes + c.tokens, credit, limit.burst, c.lastRefill - base)
  }

  /** Before its first refill a new entry has handed out nothing; that refill is worth one burst at most. */
  ghost predicate BucketOk(c: Counter, limit: Limit, successes: nat, credit: nat, base: nat) {
    || (c.lastRefill <= base && c.tokens == 0 && successes == 0 && credit == limit.burst)
    || Credited(c, limit, successes, credit, base)
  }

  lemma CappedSum(tokens: nat, add: nat, burst: nat)
    ensures 0 <= Min((tokens + add) % U32, burst) <= burst && Min((tokens + add) % U32, burst) <= tokens + add
  {
  }

  /** A refill either does nothing or stamps the bucket and adds what the time was worth at most. */
  lemma RefillAdds(c: Counter, limit: Limit, now: nat) returns (add: nat)
    requires c.lastRefill <= now
    ensures var r := RefillTokens(c, limit, now);
            r == c || (r.lastRefill == now && r.tokens <= limit.burst && r.tokens <= c.tokens + add)
    ensures SECOND * add <= Product(now - c.lastRefill, limit.burst)
  {
    add := TokensToAdd(now - c.lastRefill, limit.burst);
    TokensBounded(now - c.lastRefill, limit.burst);
    ProductIs(now - c.lastRefill, limit.burst);
    CappedSum(c.tokens, add, limit.burst);
  }

  lemma RefillCredited(c: Counter, limit: Limit, now: nat, successes: nat, credit: nat, base: nat)
    requires Credited(c, limit, successes, credit, base) && c.lastRefill <= now
    ensures Credited(RefillTokens(c, limit, now), limit, successes, credit, base)
  {
    var add := RefillAdds(c, limit, now);
    var r, span := RefillTokens(c, limit, now), now - base;
    if r != c {
      WithinAdd(successes + c.tokens, add, credit, limit.burst, c.lastRefill - base, now - c.lastRefill);
      WithinLess(successes + c.tokens + add, successes + r.tokens, credit, limit.burst, span, span);
    }
  }

  lemma RefillKeeps(c: Counter, limit: Limit, now: nat, successes: nat, credit: nat, base: nat)
    requires BucketOk(c, limit, successes, credit, base) && base <= now && c.lastRefill <= now
    ensures BucketOk(RefillTokens(c, limit, now), limit, successes, credit, base)
    ensures RefillTokens(c, limit, now).lastRefill <= now
  {
    if Credited(c, limit, successes, credit, base) {
      RefillCredited(c, limit, now, successes, credit, base);
    } else {
      WithinCredit(RefillTokens(c, limit, now).tokens, limit.burst, limit.burst, now - base);
    }
  }

  /** Only the last refill and the tokens matter to the bucket. */
  lemma BucketStep(c: Counter, limit: Limit, call: Call, successes: nat, credit: nat, base: nat)
    requires BucketOk(c, limit, successes, credit, base) && base <= call.now && c.lastRefill <= call.now
    ensures var c' := StepCounter(c, limit, call);
            && BucketOk(c', limit, successes + (if SucceedsFrom(c, limit, call) then 1 else 0), credit, base)
            && c'.lastRefill <= call.now
  {
    var c1 := if call.Check? && c.cooldownUntil.Some? && call.now >= c.cooldownUntil.value then c.(cooldownUntil := None) else c;
    RefillKeeps(UpdateCounters(c1, call.now), limit, call.now, successes, credit, base);
  }

  lemma {:induction false} BucketRun(c: Counter, limit: Limit, calls: seq<Call>, credit: nat, base: nat)
    requires BucketOk(c, limit, 0, credit, base) && c.lastRefill <= base && Ordered(calls, base)
    ensures BucketOk(After(c, limit, calls), limit, |SuccessTimes(c, limit, calls)|, credit, base)
    ensures After(c, limit, calls).lastRefill <= LastInstant(calls, base)
    decreases |calls|
  {
    if calls != [] {
      var front, last := calls[..|calls| - 1], calls[|calls| - 1];
      assert Ordered(front, base) && LastInstant(front, base) <= last.now;
      BucketRun(c, limit, front, credit, base);
      BucketStep(After(c, limit, front), limit, last, |SuccessTimes(c, limit, front)|, credit, base);
    }
  }

  lemma BucketBound(c: Counter, limit: Limit, successes: nat, credit: nat, base: nat, now: nat)
    requires BucketOk(c, limit, successes, credit, base) && base <= now && c.lastRefill <= now
    ensures Within(successes, credit, limit.burst, now - base)
  {
    if Credited(c, limit, successes, credit, base) {
      WithinLess(successes + c.tokens, successes, credit, limit.burst, c.lastRefill - base, now - base);
    } else {
      WithinCredit(successes, credit, limit.burst, now - base);
    }
  }

  lemma LastAfter(calls: seq<Call>, base: nat)
    requires Ordered(calls, base)
    ensures base <= LastInstant(calls, base)
  {
  }

  /** The calls end with entry `d` and `n` successes, within what the bucket can have handed out. */
  ghost predicate EndsWith(c: Counter, limit: Limit, calls: seq<Call>, credit: nat, base: nat, d: Counter, n: nat) {
    Pays(c, limit, calls, n) && BucketOk(d, limit, n, credit, base) && base <= LastInstant(calls, base) && d.lastRefill <= LastInstant(calls, base)
  }

  lemma RunEnds(c: Counter, limit: Limit, calls: seq<Call>, credit: nat, base: nat)
    requires BucketOk(c, limit, 0, credit, base) && c.lastRefill <= base && Ordered(calls, base)
    ensures exists d, n: nat :: EndsWith(c, limit, calls, credit, base, d, n)
  {
    BucketRun(c, limit, calls, credit, base);
    LastAfter(calls, base);
    assert EndsWith(c, limit, calls, credit, base, After(c, limit, calls), |SuccessTimes(c, limit, calls)|);
  }

  lemma EndBound(c: Counter, limit: Limit, calls: seq<Call>, credit: nat, base: nat, d: Counter, n: nat)
    requires EndsWith(c, limit, calls, credit, base, d, n)
    ensures Within(|SuccessTimes(c, limit, calls)|, credit, limit.burst, LastInstant(calls, base) - base)
  {
    BucketBound(d, limit, n, credit, base, LastInstant(calls, base));
  }

  lemma RunBound(c: Counter, limit: Limit, calls: seq<Call>, credit: nat, base: nat)
    requires BucketOk(c, limit, 0, credit, base) && c.lastRefill <= base && Ordered(calls, base)
    ensures base <= LastInstant(calls, base)
    ensures Within(|SuccessTimes(c, limit, calls)|, credit, limit.burst, LastInstant(calls, base) - base)
  {
    RunEnds(c, limit, calls, credit, base);
    var d, n: nat :| EndsWith(c, limit, calls, credit, base, d, n);
    EndBound(c, limit, calls, credit, base, d, n);
  }

  /**
    The amortised bound: since a client's entry was made, successes never exceed
    burst x (1 + elapsed seconds), whatever checks and queries were made when.
    */
  lemma BurstBound(limit: Limit, calls: seq<Call>, made: nat)
    requires Ordered(calls, made)
    ensures Within(|SuccessTimes(NewCounter(made), limit, calls)|, limit.burst, limit.burst, LastInstant(calls, made) - made)
  {
    var c := NewCounter(made);
    assert BucketOk(c, limit, 0, limit.burst, made);
    RunBound(c, limit, calls, limit.burst, made);
  }

  // ---------------------------------------------------------------- the fixed windows

  datatype Window = Seconds | Minutes | Hours | Days

  function Period(w: Window): nat {
    match w case Seconds => SECOND case Minutes => MINUTE case Hours => HOUR case Days => DAY
  }

  function BucketOf(c: Counter, w: Window): Bucket {
    match w case Seconds => c.second case Minutes => c.minute case Hours => c.hour case Days => c.day
  }

  function MaxOf(limit: Limit, w: Window): nat {
    match w
    case Seconds => limit.perSecond case Minutes => limit.perMinute case Hours => limit.perHour case Days => limit.perDay
  }

  /** A step rolls the bucket and, on success, counts once below the maximum. */
  lemma BucketOfStep(c: Counter, limit: Limit, call: Call, w: Window)
    ensures var b, b' := Roll(BucketOf(c, w), Period(w), call.now), BucketOf(StepCounter(c, limit, call), w);
            if SucceedsFrom(c, limit, call) then b.count < MaxOf(limit, w) && b' == b.(count := b.count + 1) else b' == b
  {
  }

  ghost predicate UpTo(times: seq<nat>, now: int) { forall i :: 0 <= i < |times| ==> times[i] <= now }

  lemma {:induction false} SplitCount(times: seq<nat>, low: int, mid: int, high: int)
    requires low <= mid <= high
    ensures CountIn(times, low, high) == CountIn(times, low, mid) + CountIn(times, mid, high)
    decreases |times|
  {
    if times != [] {
      SplitCount(times[..|times| - 1], low, mid, high);
    }
  }

  lemma SubCount(times: seq<nat>, low: int, low': int, high': int, high: int)
    requires low <= low' <= high' <= high
    ensures CountIn(times, low', high') <= CountIn(times, low, high)
  {
    SplitCount(times, low, low', high);
    SplitCount(times, low', high', high);
  }

  lemma {:induction false} NoneAfter(times: seq<nat>, now: int, low: int, high: int)
    requires UpTo(times, now) && now < low
    ensures CountIn(times, low, high) == 0
    decreases |times|
  {
    if times != [] {
      NoneAfter(times[..|times| - 1], now, low, high);
    }
  }

  lemma WiderCount(times: seq<nat>, now: int, low: int, high: int)
    requires UpTo(times, now) && low <= now + 1 <= high
    ensures CountIn(times, low, high) == CountIn(times, low, now + 1)
  {
    SplitCount(times, low, now + 1, high);
    NoneAfter(times, now, now + 1, high);
  }

  /** `b` counts the successes since its window opened; one period before that held no more than the maximum. */
  ghost predicate WindowOk(times: seq<nat>, period: nat, max: nat, b: Bucket, now: int) {
    && UpTo(times, now) && b.last <= now < b.last + period
    && CountIn(times, b.last, now + 1) == b.count <= max
    && CountIn(times, b.last - period, b.last) <= max
  }

  /** Rolling the window at `later`, before the call at that instant counts. */
  lemma RollKeeps(times: seq<nat>, period: nat, max: nat, b: Bucket, now: nat, later: nat)
    requires WindowOk(times, period, max, b, now) && now <= later && period > 0
    ensures WindowOk(times, period, max, Roll(b, period, later), later)
  {
    WiderCount(times, now, b.last, later + 1);
    if later - b.last >= period {
      NoneAfter(times, now, later, later + 1);
      SubCount(times, b.last, later - period, later, later + 1);
    }
  }

  /** A success at `now` is counted in the open window only. */
  lemma CountKeeps(times: seq<nat>, period: nat, max: nat, b: Bucket, now: nat)
    requires WindowOk(times, period, max, b, now) && b.count < max
    ensures WindowOk(times + [now], period, max, b.(count := b.count + 1), now)
  {
    assert (times + [now])[..|times|] == times;
  }

  lemma {:induction false} WindowRun(limit: Limit, calls: seq<Call>, made: nat, w: Window)
    requires Ordered(calls, made)
    ensures WindowOk(SuccessTimes(NewCounter(made), limit, calls), Period(w), MaxOf(limit, w),
                     BucketOf(After(NewCounter(made), limit, calls), w), LastInstant(calls, made))
    decreases |calls|
  {
    if calls != [] {
      var front, last := calls[..|calls| - 1], calls[|calls| - 1];
      assert Ordered(front, made) && LastInstant(front, made) <= last.now;
      WindowRun(limit, front, made, w);
      var c, times := After(NewCounter(made), limit, front), SuccessTimes(NewCounter(made), limit, front);
      RollKeeps(times, Period(w), MaxOf(limit, w), BucketOf(c, w), LastInstant(front, made), last.now);
      BucketOfStep(c, limit, last, w);
      if SucceedsFrom(c, limit, last) {
        CountKeeps(times, Period(w), MaxOf(limit, w), Roll(BucketOf(c, w), Period(w), last.now), last.now);
      }
    }
  }

  lemma SpanWithin(times: seq<nat>, period: nat, max: nat, b: Bucket, now: nat, low: int)
    requires WindowOk(times, period, max, b, now) && now < low + period
    ensures CountIn(times, low, low + period) <= 2 * max
  {
    var high := low + period;
    WiderCount(times, now, b.last, high);
    if b.last <= low {
      SubCount(times, b.last, low, high, high);
    } else {
      SplitCount(times, low, b.last, high);
      SubCount(times, b.last - period, low, b.last, b.last);
    }
  }

  lemma LateCallOutside(times: seq<nat>, now: nat, low: int, high: int)
    requires now >= high
    ensures CountIn(times + [now], low, high) == CountIn(times, low, high)
  {
    assert (times + [now])[..|times|] == times;
  }

  /** Any span of one second holds at most twice the maximum per second; likewise minute, hour and day. */
  lemma {:induction false} SpanBound(limit: Limit, calls: seq<Call>, made: nat, w: Window, low: int)
    requires Ordered(calls, made)
    ensures CountIn(SuccessTimes(NewCounter(made), limit, calls), low, low + Period(w)) <= 2 * MaxOf(limit, w)
    decreases |calls|
  {
    if LastInstant(calls, made) < low + Period(w) {
      WindowRun(limit, calls, made, w);
      SpanWithin(SuccessTimes(NewCounter(made), limit, calls), Period(w), MaxOf(limit, w),
                 BucketOf(After(NewCounter(made), limit, calls), w), LastInstant(calls, made), low);
    } else if calls != [] {
      var front := calls[..|calls| - 1];
      SpanBound(limit, front, made, w, low);
      LateCallOutside(SuccessTimes(NewCounter(made), limit, front), calls[|calls| - 1].now, low, low + Period(w));
    } else {
      assert SuccessTimes(NewCounter(made), limit, calls) == [];
    }
  }

  // ---------------------------------------------------------------- who is admitted

  /** Every window has room for `n` more. */
  predicate Spare(c: Counter, limit: Limit, n: nat) {
    && c.second.count + n <= limit.perSecond && c.minute.count + n <= limit.perMinute
    && c.hour.count + n <= limit.perHour && c.day.count + n <= limit.perDay
  }

  /** A burst size for which adding a refill cannot wrap the 32-bit token count. */
  predicate Ordinary(limit: Limit) { 0 < limit.burst && limit.burst + U32 / 1000 + 1 < U32 }

  lemma AddBounded(elapsed: nat, burst: nat)
    ensures TokensToAdd(elapsed, burst) < U32 / 1000 + 1
  {
  }

  /** Elapsed time brings at least one token: 32-bit arithmetic decides, not the time alone. */
  predicate Refills(elapsed: nat, burst: nat) { ((elapsed / MILLI) % U32) * burst % U32 >= 1000 }

  lemma RefillsExactly(elapsed: nat, burst: nat)
    ensures TokensToAdd(elapsed, burst) > 0 <==> Refills(elapsed, burst)
  {
    ProductIs((elapsed / MILLI) % U32, burst);
  }

  /**
    A client with open windows and no cooldown is admitted if and only if it has a token
    left or the wrapped product of elapsed milliseconds and burst size reaches 1000.
    */
  lemma AdmittedExactly(c: Counter, limit: Limit, now: nat)
    requires c.cooldownUntil.None? && c.tokens <= limit.burst && Ordinary(limit) && Spare(UpdateCounters(c, now), limit, 1)
    ensures CheckCounter(c, limit, now, None).error.None? <==> c.tokens > 0 || Refills(Since(now, c.lastRefill), limit.burst)
  {
    AddBounded(Since(now, c.lastRefill), limit.burst);
    RefillsExactly(Since(now, c.lastRefill), limit.burst);
  }

  /** With burst size 5 a client out of tokens is refused after ten days of silence. */
  lemma IdleRefused(c: Counter, limit: Limit)
    requires c.cooldownUntil.None? && c.tokens == 0 && limit.burst == 5
    requires Spare(UpdateCounters(c, c.lastRefill + 858_993_460 * MILLI), limit, 1)
    ensures CheckCounter(c, limit, c.lastRefill + 858_993_460 * MILLI, None).error == Some(BurstExceeded)
  {
    assert (858_993_460 * MILLI) / MILLI == 858_993_460;
    assert TokensToAdd(858_993_460 * MILLI, 5) == 0;
  }

  /** At least one and not 2^32 burst-milliseconds pass between two checks. */
  predicate Paced(gap: nat, burst: nat) { 1000 <= (gap / MILLI) * burst < U32 }

  lemma PacedRefills(gap: nat, burst: nat)
    requires Paced(gap, burst) && burst > 0
    ensures TokensToAdd(gap, burst) > 0
  {
    var ms := gap / MILLI;
    assert ms <= ms * burst;
    assert ms % U32 == ms;
    ProductIs(ms, burst);
  }

  lemma RefillStamps(c: Counter, limit: Limit, now: nat, add: nat)
    requires c.tokens <= limit.burst && Ordinary(limit) && add == TokensToAdd(Since(now, c.lastRefill), limit.burst)
    requires 0 < add < U32 / 1000 + 1
    ensures var d := RefillTokens(c, limit, now); d.lastRefill == now && 0 < d.tokens <= limit.burst
  {
  }

  lemma PacedTokens(c: Counter, limit: Limit, now: nat)
    requires c.tokens <= limit.burst && Ordinary(limit) && c.lastRefill <= now && Paced(now - c.lastRefill, limit.burst)
    ensures var d := RefillTokens(c, limit, now); d.lastRefill == now && 0 < d.tokens <= limit.burst
  {
    PacedRefills(now - c.lastRefill, limit.burst);
    AddBounded(now - c.lastRefill, limit.burst);
    RefillStamps(c, limit, now, TokensToAdd(now - c.lastRefill, limit.burst));
  }

  lemma PacedCheck(c: Counter, limit: Limit, now: nat, n: nat)
    requires c.cooldownUntil.None? && c.tokens <= limit.burst && Ordinary(limit)
    requires c.lastRefill <= now && Paced(now - c.lastRefill, limit.burst) && Spare(c, limit, n + 1)
    ensures var r := CheckCounter(c, limit, now, None);
            && r.error.None? && r.counter.lastRefill == now && r.counter.tokens <= limit.burst
            && r.counter.cooldownUntil.None? && Spare(r.counter, limit, n)
  {
    var rolled := UpdateCounters(c, now);
    assert Spare(rolled, limit, n + 1) && rolled.tokens == c.tokens && rolled.lastRefill == c.lastRefill;
    PacedTokens(rolled, limit, now);
  }

  lemma PacedBetween(gap: nat, low: nat, high: nat, burst: nat)
    requires low <= gap <= high && Paced(low, burst) && Paced(high, burst)
    ensures Paced(gap, burst)
  {
    MulMonotone(low / MILLI, gap / MILLI, burst);
    MulMonotone(gap / MILLI, high / MILLI, burst);
  }

  /** A single client's checks with nothing else in the way, `low` to `high` apart. */
  ghost predicate PacedRun(calls: seq<Call>, low: nat, high: nat) {
    && (forall i :: 0 <= i < |calls| ==> calls[i].Check? && calls[i].blocked.None?)
    && (forall i :: 0 < i < |calls| ==> calls[i - 1].now + low <= calls[i].now <= calls[i - 1].now + high)
  }

  /** Out of cooldown, with a sound bucket and room for `n` more in every window. */
  predicate Welcome(c: Counter, limit: Limit, n: nat) {
    c.cooldownUntil.None? && c.tokens <= limit.burst && Spare(c, limit, n)
  }

  lemma WelcomeCheck(c: Counter, limit: Limit, call: Call, low: nat, high: nat, n: nat)
    requires Ordinary(limit) && Paced(low, limit.burst) && Paced(high, limit.burst) && Welcome(c, limit, n + 1)
    requires call.Check? && call.blocked.None? && c.lastRefill + low <= call.now <= c.lastRefill + high
    ensures var d := StepCounter(c, limit, call);
            SucceedsFrom(c, limit, call) && Welcome(d, limit, n) && d.lastRefill == call.now
  {
    PacedBetween(call.now - c.lastRefill, low, high, limit.burst);
    PacedCheck(c, limit, call.now, n);
  }

  lemma {:induction false} PacedAdmitted(c: Counter, limit: Limit, calls: seq<Call>, low: nat, high: nat, n: nat)
    requires Ordinary(limit) && Paced(low, limit.burst) && Paced(high, limit.burst) && PacedRun(calls, low, high)
    requires Welcome(c, limit, |calls| + n)
    requires calls != [] ==> c.lastRefill + low <= calls[0].now <= c.lastRefill + high
    ensures |SuccessTimes(c, limit, calls)| == |calls| && Welcome(After(c, limit, calls), limit, n)
    ensures calls != [] ==> After(c, limit, calls).lastRefill == calls[|calls| - 1].now
    decreases |calls|
  {
    if calls != [] {
      var front, last := calls[..|calls| - 1], calls[|calls| - 1];
      PacedAdmitted(c, limit, front, low, high, n + 1);
      WelcomeCheck(After(c, limit, front), limit, last, low, high, n);
    }
  }

  /**
    The bounds are met without refusing the well-behaved: a client whose checks are apart
    by at least one token's worth of time and less than 2^32 burst-milliseconds, and that
    stays below the maxima, is always admitted.
    */
  lemma PacedClient(limit: Limit, calls: seq<Call>, low: nat, high: nat)
    requires PacedRun(calls, low, high) && calls != [] && calls[0].now >= MINUTE && low <= MINUTE <= high
    requires Ordinary(limit) && Paced(low, limit.burst) && Paced(high, limit.burst)
    requires Spare(NewCounter(calls[0].now), limit, |calls|)
    ensures |SuccessTimes(NewCounter(calls[0].now), limit, calls)| == |calls|
  {
    PacedAdmitted(NewCounter(calls[0].now), limit, calls, low, high, 0);
  }

  // ---------------------------------------------------------------- measured from the first check

  /** Calls in order, the first of them a check at `first`. */
  predicate StartsWithCheck(calls: seq<Call>, first: nat) {
    calls != [] && calls[0].Check? && calls[0].now == first && Ordered(calls, first)
  }

  /** These calls have at most burst x (1 + seconds since `first`) successes. */
  predicate KeepsBound(c: Counter, limit: Limit, calls: seq<Call>, first: nat) {
    first <= LastInstant(calls, first)
    && Within(|SuccessTimes(c, limit, calls)|, limit.burst, limit.burst, LastInstant(calls, first) - first)
  }

  lemma KeepsIfPaid(c: Counter, limit: Limit, calls: seq<Call>, first: nat, n: nat)
    requires Pays(c, limit, calls, n) && first <= LastInstant(calls, first)
    ensures KeepsBound(c, limit, calls, first) <==> Within(n, limit.burst, limit.burst, LastInstant(calls, first) - first)
  {
  }

  /** Counted from a check at `first`, before which the client's entry is `c`, the bound holds. */
  ghost predicate BoundedFrom(c: Counter, limit: Limit, first: nat) {
    forall calls :: StartsWithCheck(calls, first) ==> KeepsBound(c, limit, calls, first)
  }

  /** Nothing is due at `now`: windows are open and no whole token has accrued. */
  predicate Settled(c: Counter, limit: Limit, now: nat) { QueryCounter(c, limit, now) == c && c.cooldownUntil.None? }

  function Repeat(now: nat, n: nat): seq<Call> { seq(n, _ => Check(now, None)) }

  lemma NothingElapsed(burst: nat)
    ensures TokensToAdd(0, burst) == 0
  {
    ProductIs(0, burst);
  }

  lemma SettledCheck(c: Counter, limit: Limit, now: nat)
    requires Settled(c, limit, now) && c.tokens > 0 && Spare(c, limit, 1)
    ensures CheckCounter(c, limit, now, None) == Checked(Spend(c), None) && Settled(Spend(c), limit, now)
  {
    NothingElapsed(limit.burst);
  }

  /** A settled bucket pays out its tokens one by one. */
  lemma {:induction false} Drain(c: Counter, limit: Limit, now: nat, n: nat)
    requires Settled(c, limit, now) && c.tokens >= n && Spare(c, limit, n)
    ensures var d := After(c, limit, Repeat(now, n));
            && |SuccessTimes(c, limit, Repeat(now, n))| == n
            && Settled(d, limit, now) && d.tokens == c.tokens - n && d.lastRefill == c.lastRefill
            && d.second.count == c.second.count + n && d.minute.count == c.minute.count + n
            && d.hour.count == c.hour.count + n && d.day.count == c.day.count + n
    decreases n
  {
    if n > 0 {
      Drain(c, limit, now, n - 1);
      assert Repeat(now, n)[..n - 1] == Repeat(now, n - 1);
      SettledCheck(After(c, limit, Repeat(now, n - 1)), limit, now);
    }
  }

  lemma {:induction false} RunsCompose(c: Counter, limit: Limit, a: seq<Call>, b: seq<Call>)
    ensures After(c, limit, a + b) == After(After(c, limit, a), limit, b)
    ensures SuccessTimes(c, limit, a + b) == SuccessTimes(c, limit, a) + SuccessTimes(After(c, limit, a), limit, b)
    decreases |b|
  {
    if b == [] {
      assert a + b == a;
    } else {
      RunsCompose(c, limit, a, b[..|b| - 1]);
      assert (a + b)[..|a + b| - 1] == a + b[..|b| - 1];
    }
  }

  lemma RefillTwice(c: Counter, limit: Limit, now: nat)
    requires c.lastRefill == now || TokensToAdd(Since(now, c.lastRefill), limit.burst) == 0
    ensures RefillTokens(c, limit, now) == c
  {
    NothingElapsed(limit.burst);
  }

  lemma RollTwice(c: Counter, now: nat)
    ensures UpdateCounters(UpdateCounters(c, now), now) == UpdateCounters(c, now)
  {
  }

  lemma RefillLeavesWindows(c: Counter, limit: Limit, now: nat)
    requires UpdateCounters(c, now) == c
    ensures UpdateCounters(RefillTokens(c, limit, now), now) == RefillTokens(c, limit, now)
    ensures RefillTokens(RefillTokens(c, limit, now), limit, now) == RefillTokens(c, limit, now)
  {
    RefillTwice(RefillTokens(c, limit, now), limit, now);
  }

  /** A check does first what a query does. */
  lemma RefilledCheck(c: Counter, limit: Limit, now: nat, blocked: Option<RateError>)
    requires c.cooldownUntil.None?
    ensures Settled(QueryCounter(c, limit, now), limit, now)
    ensures CheckCounter(c, limit, now, blocked) == CheckCounter(QueryCounter(c, limit, now), limit, now, blocked)
  {
    RollTwice(c, now);
    RefillLeavesWindows(UpdateCounters(c, now), limit, now);
  }

  lemma OneCall(c: Counter, limit: Limit, call: Call)
    ensures After(c, limit, [call]) == StepCounter(c, limit, call)
    ensures SuccessTimes(c, limit, [call]) == if SucceedsFrom(c, limit, call) then [call.now] else []
  {
    assert [call][..0] == [];
  }

  lemma RefilledRun(c: Counter, limit: Limit, now: nat, calls: seq<Call>)
    requires c.cooldownUntil.None? && StartsWithCheck(calls, now)
    ensures After(c, limit, calls) == After(QueryCounter(c, limit, now), limit, calls)
    ensures SuccessTimes(c, limit, calls) == SuccessTimes(QueryCounter(c, limit, now), limit, calls)
  {
    var call, rest, c1 := calls[0], calls[1..], QueryCounter(c, limit, now);
    assert calls == [call] + rest;
    RefilledCheck(c, limit, now, call.blocked);
    OneCall(c, limit, call);
    OneCall(c1, limit, call);
    RunsCompose(c, limit, [call], rest);
    RunsCompose(c1, limit, [call], rest);
  }

  /** After exactly one second an empty bucket is full again. */
  lemma SecondRefills(c: Counter, limit: Limit)
    requires c.tokens == 0 && 0 < limit.burst && 1000 * limit.burst < U32
    ensures var d := QueryCounter(c, limit, c.lastRefill + SECOND);
            d.tokens == limit.burst && d.second.count <= c.second.count && d.minute.count <= c.minute.count
            && d.hour.count <= c.hour.count && d.day.count <= c.day.count
  {
    assert SECOND / MILLI == 1000;
    ProductIs(1000, limit.burst);
    assert TokensToAdd(SECOND, limit.burst) == limit.burst;
  }

  /** `n` checks at once, then a full burst at the first instant that brings one. */
  function Bursts(first: nat, n: nat, later: nat, burst: nat): seq<Call> { Repeat(first, n) + Repeat(later, burst) }

  lemma SecondBurst(c: Counter, limit: Limit)
    requires c.cooldownUntil.None? && c.tokens == 0 && 0 < limit.burst && 1000 * limit.burst < U32 && Spare(c, limit, limit.burst)
    ensures Pays(c, limit, Repeat(c.lastRefill + SECOND, limit.burst), limit.burst)
  {
    var later := c.lastRefill + SECOND;
    SecondRefills(c, limit);
    RefilledCheck(c, limit, later, None);
    RefilledRun(c, limit, later, Repeat(later, limit.burst));
    Drain(QueryCounter(c, limit, later), limit, later, limit.burst);
  }

  /** `d` is the entry once every token is spent at `now`, with room for `spare` more. */
  predicate Emptied(c: Counter, limit: Limit, now: nat, spare: nat, d: Counter) {
    && d == After(c, limit, Repeat(now, c.tokens)) && Pays(c, limit, Repeat(now, c.tokens), c.tokens)
    && d.cooldownUntil.None? && d.tokens == 0 && d.lastRefill == c.lastRefill && Spare(d, limit, spare)
  }

  lemma DrainAll(c: Counter, limit: Limit, now: nat, spare: nat)
    requires Settled(c, limit, now) && Spare(c, limit, c.tokens + spare)
    ensures exists d :: Emptied(c, limit, now, spare, d)
  {
    Drain(c, limit, now, c.tokens);
    assert Emptied(c, limit, now, spare, After(c, limit, Repeat(now, c.tokens)));
  }

  lemma BurstsAdd(c: Counter, limit: Limit, first: nat, n: nat, later: nat, d: Counter)
    requires d == After(c, limit, Repeat(first, n)) && Pays(c, limit, Repeat(first, n), n)
    requires Pays(d, limit, Repeat(later, limit.burst), limit.burst)
    ensures Pays(c, limit, Bursts(first, n, later, limit.burst), n + limit.burst)
  {
    RunsCompose(c, limit, Repeat(first, n), Repeat(later, limit.burst));
  }

  lemma BurstAfterEmpty(c: Counter, limit: Limit, first: nat, d: Counter)
    requires 0 < limit.burst && 1000 * limit.burst < U32 && Emptied(c, limit, first, limit.burst, d)
    ensures Pays(c, limit, Bursts(first, c.tokens, c.lastRefill + SECOND, limit.burst), c.tokens + limit.burst)
  {
    SecondBurst(d, limit);
    BurstsAdd(c, limit, first, c.tokens, c.lastRefill + SECOND, d);
  }

  lemma TwoBursts(c: Counter, limit: Limit, first: nat)
    requires Settled(c, limit, first) && 0 < limit.burst && 1000 * limit.burst < U32 && Spare(c, limit, c.tokens + limit.burst)
    ensures Pays(c, limit, Bursts(first, c.tokens, c.lastRefill + SECOND, limit.burst), c.tokens + limit.burst)
  {
    DrainAll(c, limit, first, limit.burst);
    var d :| Emptied(c, limit, first, limit.burst, d);
    BurstAfterEmpty(c, limit, first, d);
  }

  lemma BurstsOrdered(first: nat, n: nat, later: nat, burst: nat)
    requires first <= later && n > 0 && burst > 0
    ensures StartsWithCheck(Bursts(first, n, later, burst), first)
    ensures LastInstant(Bursts(first, n, later, burst), first) == later
  {
  }

  /** The tokens left and those earned since the last refill make at most one burst. */
  predicate OneBurst(tokens: nat, burst: nat, span: nat) { SECOND * tokens + Product(span, burst) <= SECOND * burst }

  lemma OneBurstIsEnough(spent: nat, tokens: nat, burst: nat, span: nat, since: nat)
    requires OneBurst(tokens, burst, span) && Within(spent, tokens, burst, span + since)
    ensures Within(spent, burst, burst, since)
  {
    ProductAdds(span, since, burst);
  }

  lemma MoreIsTooMuch(tokens: nat, burst: nat, span: nat, rest: nat)
    requires !OneBurst(tokens, burst, span) && span + rest == SECOND
    ensures !Within(tokens + burst, burst, burst, rest)
  {
    ProductAdds(span, rest, burst);
    ProductIs(SECOND, burst);
  }

  /** A bucket that has not been refilled by now was refilled less than a second ago. */
  lemma NotDueYet(elapsed: nat, burst: nat)
    requires burst > 0 && (elapsed / MILLI) * burst < U32 && TokensToAdd(elapsed, burst) == 0
    ensures elapsed < SECOND
  {
    var ms := elapsed / MILLI;
    MulMonotone(1, burst, ms);
    ProductIs(ms, burst);
    assert ms % U32 == ms && ms * burst < 1000;
  }

  lemma EarlierStart(calls: seq<Call>, first: nat, base: nat)
    requires StartsWithCheck(calls, first) && base <= first
    ensures Ordered(calls, base) && first <= LastInstant(calls, base) == LastInstant(calls, first)
  {
  }

  lemma StartsCredited(c: Counter, limit: Limit)
    requires c.tokens <= limit.burst
    ensures BucketOk(c, limit, 0, c.tokens, c.lastRefill)
  {
    WithinCredit(c.tokens, c.tokens, limit.burst, 0);
  }

  lemma ShiftBound(spent: nat, tokens: nat, burst: nat, base: nat, first: nat, last: nat)
    requires base <= first <= last && OneBurst(tokens, burst, first - base) && Within(spent, tokens, burst, last - base)
    ensures Within(spent, burst, burst, last - first)
  {
    OneBurstIsEnough(spent, tokens, burst, first - base, last - first);
  }

  lemma EndShift(limit: Limit, credit: nat, d: Counter, n: nat, base: nat, first: nat, last: nat)
    requires BucketOk(d, limit, n, credit, base) && base <= first <= last && d.lastRefill <= last
    requires OneBurst(credit, limit.burst, first - base)
    ensures Within(n, limit.burst, limit.burst, last - first)
  {
    BucketBound(d, limit, n, credit, base, last);
    ShiftBound(n, credit, limit.burst, base, first, last);
  }

  lemma SettledEnds(c: Counter, limit: Limit, calls: seq<Call>, first: nat)
    requires c.tokens <= limit.burst && c.lastRefill <= first && StartsWithCheck(calls, first)
    ensures exists d, n: nat :: EndsWith(c, limit, calls, c.tokens, c.lastRefill, d, n)
  {
    StartsCredited(c, limit);
    EarlierStart(calls, first, c.lastRefill);
    RunEnds(c, limit, calls, c.tokens, c.lastRefill);
  }

  lemma EndKeeps(c: Counter, limit: Limit, calls: seq<Call>, first: nat, d: Counter, n: nat)
    requires c.lastRefill <= first && OneBurst(c.tokens, limit.burst, first - c.lastRefill) && StartsWithCheck(calls, first)
    requires EndsWith(c, limit, calls, c.tokens, c.lastRefill, d, n)
    ensures KeepsBound(c, limit, calls, first)
  {
    EarlierStart(calls, first, c.lastRefill);
    EndShift(limit, c.tokens, d, n, c.lastRefill, first, LastInstant(calls, first));
    KeepsIfPaid(c, limit, calls, first, n);
  }

  lemma SettledBounded(c: Counter, limit: Limit, calls: seq<Call>, first: nat)
    requires c.tokens <= limit.burst && c.lastRefill <= first && OneBurst(c.tokens, limit.burst, first - c.lastRefill)
    requires StartsWithCheck(calls, first)
    ensures KeepsBound(c, limit, calls, first)
  {
    SettledEnds(c, limit, calls, first);
    var d, n: nat :| EndsWith(c, limit, calls, c.tokens, c.lastRefill, d, n);
    EndKeeps(c, limit, calls, first, d, n);
  }

  /** These calls, counted from their first check, exceed the bound. */
  predicate Breaks(c: Counter, limit: Limit, first: nat, calls: seq<Call>) {
    StartsWithCheck(calls, first) && !KeepsBound(c, limit, calls, first)
  }

  lemma TooManyBreak(c: Counter, limit: Limit, first: nat, n: nat, later: nat)
    requires n > 0 && 0 < limit.burst && first <= later && !Within(n + limit.burst, limit.burst, limit.burst, later - first)
    requires Pays(c, limit, Bursts(first, n, later, limit.burst), n + limit.burst)
    ensures exists calls :: Breaks(c, limit, first, calls)
  {
    BurstsOrdered(first, n, later, limit.burst);
    KeepsIfPaid(c, limit, Bursts(first, n, later, limit.burst), first, n + limit.burst);
    assert Breaks(c, limit, first, Bursts(first, n, later, limit.burst));
  }

  lemma EmptyFits(burst: nat, span: nat)
    requires span <= SECOND
    ensures OneBurst(0, burst, span)
  {
    ProductAdds(span, SECOND - span, burst);
    ProductIs(SECOND, burst);
  }

  lemma TooManyBursts(tokens: nat, burst: nat, base: nat, first: nat, later: nat)
    requires base <= first < later == base + SECOND && !OneBurst(tokens, burst, first - base)
    ensures tokens > 0 && !Within(tokens + burst, burst, burst, later - first)
  {
    EmptyFits(burst, first - base);
    MoreIsTooMuch(tokens, burst, first - base, later - first);
  }

  lemma BurstsBreak(c: Counter, limit: Limit, first: nat, later: nat)
    requires c.lastRefill <= first < later == c.lastRefill + SECOND && 0 < limit.burst
    requires Pays(c, limit, Bursts(first, c.tokens, later, limit.burst), c.tokens + limit.burst)
    requires !OneBurst(c.tokens, limit.burst, first - c.lastRefill)
    ensures exists calls :: Breaks(c, limit, first, calls)
  {
    TooManyBursts(c.tokens, limit.burst, c.lastRefill, first, later);
    TooManyBreak(c, limit, first, c.tokens, later);
  }

  lemma SettledUnbounded(c: Counter, limit: Limit, first: nat)
    requires Settled(c, limit, first) && c.lastRefill <= first < c.lastRefill + SECOND
    requires 0 < limit.burst && 1000 * limit.burst < U32 && Spare(c, limit, c.tokens + limit.burst)
    requires !OneBurst(c.tokens, limit.burst, first - c.lastRefill)
    ensures exists calls :: Breaks(c, limit, first, calls)
  {
    TwoBursts(c, limit, first);
    BurstsBreak(c, limit, first, c.lastRefill + SECOND);
  }

  /** No cooldown, and a refill at `first` that 32-bit arithmetic computes exactly. */
  predicate Plain(c: Counter, limit: Limit, first: nat) {
    && c.cooldownUntil.None? && c.tokens <= limit.burst && 0 < limit.burst && 1000 * limit.burst < U32
    && c.lastRefill <= first && ((first - c.lastRefill) / MILLI) * limit.burst < U32
  }

  lemma RefilledIsRecent(c: Counter, limit: Limit, first: nat)
    requires Plain(c, limit, first)
    ensures var r := QueryCounter(c, limit, first); r.tokens <= limit.burst && r.lastRefill <= first < r.lastRefill + SECOND
  {
    var elapsed := first - c.lastRefill;
    if TokensToAdd(elapsed, limit.burst) == 0 {
      NotDueYet(elapsed, limit.burst);
    }
  }

  lemma BreaksBefore(c: Counter, limit: Limit, first: nat, calls: seq<Call>)
    requires c.cooldownUntil.None? && Breaks(QueryCounter(c, limit, first), limit, first, calls)
    ensures !BoundedFrom(c, limit, first)
  {
    RefilledRun(c, limit, first, calls);
  }

  lemma UnboundedFrom(c: Counter, limit: Limit, first: nat)
    requires Plain(c, limit, first) && Spare(QueryCounter(c, limit, first), limit, 2 * limit.burst)
    requires var r := QueryCounter(c, limit, first);
             r.lastRefill <= first && !OneBurst(r.tokens, limit.burst, first - r.lastRefill)
    ensures !BoundedFrom(c, limit, first)
  {
    var r := QueryCounter(c, limit, first);
    RefilledCheck(c, limit, first, None);
    RefilledIsRecent(c, limit, first);
    SettledUnbounded(r, limit, first);
    var calls :| Breaks(r, limit, first, calls);
    BreaksBefore(c, limit, first, calls);
  }

  lemma BoundedIfOneBurst(c: Counter, limit: Limit, first: nat)
    requires Plain(c, limit, first)
    requires var r := QueryCounter(c, limit, first); r.lastRefill <= first && OneBurst(r.tokens, limit.burst, first - r.lastRefill)
    ensures BoundedFrom(c, limit, first)
  {
    var r := QueryCounter(c, limit, first);
    RefilledIsRecent(c, limit, first);
    forall calls | StartsWithCheck(calls, first) ensures KeepsBound(c, limit, calls, first) {
      RefilledRun(c, limit, first, calls);
      SettledBounded(r, limit, calls, first);
    }
  }

  /**
    Counted from any check, the bound holds if and only if the tokens the client has then,
    and those it has earned since its bucket was last stamped, make at most one burst.
    */
  lemma FirstCheckExactly(c: Counter, limit: Limit, first: nat)
    requires Plain(c, limit, first) && Spare(UpdateCounters(c, first), limit, 2 * limit.burst)
    ensures var r := QueryCounter(c, limit, first);
            && r.lastRefill <= first
            && (BoundedFrom(c, limit, first) <==> OneBurst(r.tokens, limit.burst, first - r.lastRefill))
  {
    var r := QueryCounter(c, limit, first);
    RefilledIsRecent(c, limit, first);
    if OneBurst(r.tokens, limit.burst, first - r.lastRefill) {
      BoundedIfOneBurst(c, limit, first);
    } else {
      UnboundedFrom(c, limit, first);
    }
  }

  // ---------------------------------------------------------------- queries before the first check

  ghost predicate AllQueries(calls: seq<Call>) { forall i :: 0 <= i < |calls| ==> calls[i].Query? }

  /** What queries leave of a new entry: nothing counted, and a full bucket. */
  predicate Unused(c: Counter, limit: Limit) {
    && c.second.count == c.minute.count == c.hour.count == c.day.count == 0
    && c.cooldownUntil.None? && c.tokens == limit.burst
  }

  lemma FirstQueryFills(limit: Limit, made: nat)
    requires made >= MINUTE && 0 < limit.burst && 60_000 * limit.burst < U32
    ensures var c := QueryCounter(NewCounter(made), limit, made); Unused(c, limit) && c.lastRefill == made
  {
    assert MINUTE / MILLI == 60_000;
    ProductIs(60_000, limit.burst);
    assert TokensToAdd(MINUTE, limit.burst) == 60 * limit.burst;
  }

  lemma QueryKeepsFull(c: Counter, limit: Limit, now: nat)
    requires Unused(c, limit) && Ordinary(limit) && c.lastRefill <= now
    ensures var d := QueryCounter(c, limit, now); Unused(d, limit) && d.lastRefill <= now
  {
    AddBounded(Since(now, c.lastRefill), limit.burst);
  }

  lemma {:induction false} QueriesKeepFull(limit: Limit, queries: seq<Call>, made: nat)
    requires made >= MINUTE && 0 < limit.burst && 60_000 * limit.burst < U32
    requires AllQueries(queries) && queries != [] && queries[0].now == made && Ordered(queries, made)
    ensures var c := After(NewCounter(made), limit, queries); Unused(c, limit) && c.lastRefill <= LastInstant(queries, made)
    decreases |queries|
  {
    var front, last := queries[..|queries| - 1], queries[|queries| - 1];
    if front == [] {
      FirstQueryFills(limit, made);
    } else {
      QueriesKeepFull(limit, front, made);
      QueryKeepsFull(After(NewCounter(made), limit, front), limit, last.now);
    }
  }

  lemma FullBucketExactly(burst: nat, span: nat)
    requires burst > 0
    ensures OneBurst(burst, burst, span) <==> span == 0
  {
    ProductIs(span, burst);
    MulMonotone(1, burst, span);
  }

  /**
    A client whose entry was made by `remaining` queries: counted from its first check,
    the bound holds if and only if that check, or a query at its very instant, stamped the
    bucket. Otherwise two full bursts fit into less than a second.
    */
  lemma FirstCheckAfterQueries(limit: Limit, queries: seq<Call>, made: nat, first: nat)
    requires made >= MINUTE && 60_000 * limit.burst < U32 && Spare(NewCounter(made), limit, 2 * limit.burst)
    requires AllQueries(queries) && queries != [] && queries[0].now == made && Ordered(queries, made)
    requires LastInstant(queries, made) <= first && Plain(After(NewCounter(made), limit, queries), limit, first)
    ensures var c := After(NewCounter(made), limit, queries);
            BoundedFrom(c, limit, first) <==> QueryCounter(c, limit, first).lastRefill == first
  {
    var c := After(NewCounter(made), limit, queries);
    QueriesKeepFull(limit, queries, made);
    QueryKeepsFull(c, limit, first);
    FirstCheckExactly(c, limit, first);
    FullBucketExactly(limit.burst, first - QueryCounter(c, limit, first).lastRefill);
  }

  /** The default limit of the encrypt operation. */
  const ENCRYPT := Limit(20, 200, 2000, 20000, 30 * SECOND, 10)

  /** A query one nanosecond before the first check is enough. */
  lemma QueryBreaksBound(made: nat)
    requires made >= MINUTE
    ensures !BoundedFrom(QueryCounter(NewCounter(made), ENCRYPT, made), ENCRYPT, made + 1)
  {
    var c := QueryCounter(NewCounter(made), ENCRYPT, made);
    FirstQueryFills(ENCRYPT, made);
    assert TokensToAdd(1, 10) == 0;
    FirstCheckExactly(c, ENCRYPT, made + 1);
  }

  /** An entry made by the first check itself always meets the bound. */
  lemma FirstCheckMakesEntry(limit: Limit, first: nat)
    ensures BoundedFrom(NewCounter(first), limit, first)
  {
    forall calls | StartsWithCheck(calls, first) ensures KeepsBound(NewCounter(first), limit, calls, first) {
      LastAfter(calls, first);
      BurstBound(limit, calls, first);
    }
  }

  // ---------------------------------------------------------------- cooldown

  /** The verdict on check `i` of a client whose first call made the entry. */
  function VerdictAt(limit: Limit, calls: seq<Call>, made: nat, i: nat): Option<RateError>
    requires i < |calls| && calls[i].Check?
  {
    CheckCounter(After(NewCounter(made), limit, calls[..i]), limit, calls[i].now, calls[i].blocked).error
  }

  /** Call `j` is the client's last check before call `i`. */
  predicate LastCheck(calls: seq<Call>, j: nat, i: nat)
    requires i <= |calls|
  {
    j < i && calls[j].Check? && forall m :: j < m < i ==> calls[m].Query?
  }

  /** The checks that were refused less than the cooldown before `now`. */
  function RecentRefusals(limit: Limit, calls: seq<Call>, made: nat, now: nat): set<nat> {
    set j | 0 <= j < |calls| && calls[j].Check? && VerdictAt(limit, calls, made, j).Some? && now < calls[j].now + limit.cooldown
  }

  /** The last check before `i` is one of these. */
  ghost predicate LastAmong(calls: seq<Call>, refused: set<nat>, i: nat)
    requires i <= |calls|
  {
    exists j: nat :: LastCheck(calls, j, i) && j in refused
  }

  /** The ban a call leaves: a check renews or lifts it, a query leaves it alone. */
  lemma BanAfter(c: Counter, limit: Limit, call: Call)
    ensures StepCounter(c, limit, call).cooldownUntil ==
              match call
              case Check(now, blocked) =>
                if CheckCounter(c, limit, now, blocked).error.Some? then Some(now + limit.cooldown) else None
              case Query(_) => c.cooldownUntil
  {
  }

  predicate Bans(until: Option<nat>, now: nat) { until.Some? && now < until.value }

  lemma AfterUnfolds(c: Counter, limit: Limit, calls: seq<Call>, i: nat)
    requires 0 < i <= |calls|
    ensures After(c, limit, calls[..i]) == StepCounter(After(c, limit, calls[..i - 1]), limit, calls[i - 1])
  {
    assert calls[..i][..i - 1] == calls[..i - 1];
  }

  lemma LastIsCheck(calls: seq<Call>, refused: set<nat>, i: nat)
    requires 0 < i <= |calls| && calls[i - 1].Check?
    ensures LastAmong(calls, refused, i) <==> i - 1 in refused
  {
    assert LastCheck(calls, i - 1, i);
  }

  lemma LastPastQuery(calls: seq<Call>, refused: set<nat>, i: nat)
    requires 0 < i <= |calls| && calls[i - 1].Query?
    ensures LastAmong(calls, refused, i) <==> LastAmong(calls, refused, i - 1)
  {
    if LastAmong(calls, refused, i - 1) {
      var j: nat :| LastCheck(calls, j, i - 1) && j in refused;
      assert LastCheck(calls, j, i);
    }
    if LastAmong(calls, refused, i) {
      var j: nat :| LastCheck(calls, j, i) && j in refused;
      assert LastCheck(calls, j, i - 1);
    }
  }

  lemma BanByCheck(limit: Limit, calls: seq<Call>, made: nat, i: nat, now: nat)
    requires 0 < i <= |calls| && calls[i - 1].Check?
    ensures Bans(After(NewCounter(made), limit, calls[..i]).cooldownUntil, now) <==>
              i - 1 in RecentRefusals(limit, calls, made, now)
  {
    AfterUnfolds(NewCounter(made), limit, calls, i);
    BanAfter(After(NewCounter(made), limit, calls[..i - 1]), limit, calls[i - 1]);
  }

  lemma BanPastQuery(limit: Limit, calls: seq<Call>, made: nat, i: nat)
    requires 0 < i <= |calls| && calls[i - 1].Query?
    ensures After(NewCounter(made), limit, calls[..i]).cooldownUntil
            == After(NewCounter(made), limit, calls[..i - 1]).cooldownUntil
  {
    AfterUnfolds(NewCounter(made), limit, calls, i);
  }

  lemma {:induction false} BanFollows(limit: Limit, calls: seq<Call>, made: nat, i: nat, now: nat)
    requires i <= |calls|
    ensures Bans(After(NewCounter(made), limit, calls[..i]).cooldownUntil, now) <==>
              LastAmong(calls, RecentRefusals(limit, calls, made, now), i)
    decreases i
  {
    if i > 0 {
      if calls[i - 1].Check? {
        BanByCheck(limit, calls, made, i, now);
        LastIsCheck(calls, RecentRefusals(limit, calls, made, now), i);
      } else {
        BanPastQuery(limit, calls, made, i);
        BanFollows(limit, calls, made, i - 1, now);
        LastPastQuery(calls, RecentRefusals(limit, calls, made, now), i);
      }
    }
  }

  /**
    Over every run, whatever queries lie between: a check that the global part lets through
    is refused for cooldown if and only if the client's last check was refused, for any
    reason, less than the cooldown before. So each refusal starts the ban anew.
    */
  lemma CooldownExactly(limit: Limit, calls: seq<Call>, made: nat, i: nat)
    requires i < |calls| && calls[i].Check? && calls[i].blocked.None?
    ensures VerdictAt(limit, calls, made, i) == Some(CooldownActive) <==>
              exists j: nat :: LastCheck(calls, j, i) && VerdictAt(limit, calls, made, j).Some?
                               && calls[i].now < calls[j].now + limit.cooldown
  {
    BanFollows(limit, calls, made, i, calls[i].now);
  }

  // ---------------------------------------------------------------- the object

  datatype Quota = Quota(perSecond: nat, perMinute: nat, perHour: nat, perDay: nat, tokens: nat, inCooldown: bool)

  /** What is left in each window, never below zero. */
  function QuotaOf(c: Counter, limit: Limit, now: nat): Quota {
    Quota(Since(limit.perSecond, c.second.count), Since(limit.perMinute, c.minute.count),
          Since(limit.perHour, c.hour.count), Since(limit.perDay, c.day.count),
          c.tokens, c.cooldownUntil.Some? && now < c.cooldownUntil.value)
  }

  /**
    What a quota promises: a check made at the same instant, with nothing found by the
    global part, succeeds if and only if every field of the quota leaves room.
    */
  lemma QuotaForetells(c: Counter, limit: Limit, now: nat)
    ensures var q := QuotaOf(QueryCounter(c, limit, now), limit, now);
            CheckCounter(c, limit, now, None).error.None? <==>
              !q.inCooldown && q.tokens > 0 && q.perSecond > 0 && q.perMinute > 0 && q.perHour > 0 && q.perDay > 0
  {
  }

  class RateLimiter {
    const limits: map<string, Limit>
    const globalEnabled: bool
    const globalRps: nat
    var counters: map<string, Counter>
    var global: Bucket

    constructor (limits: map<string, Limit>, globalEnabled: bool, globalRps: nat, now: nat)
      ensures this.limits == limits && counters == map[] && global == Bucket(0, now)
    {
      this.limits := limits;
      this.globalEnabled := globalEnabled;
      this.globalRps := globalRps;
      counters := map[];
      global := Bucket(0, now);
    }

    /** The entry a call works on: the stored one, or a new one made now. */
    function EntryAt(client: string, now: nat): Counter
      reads this
    {
      if client in counters then counters[client] else NewCounter(now)
    }

    /** The error a call finds before it looks at the client's own counter. */
    function Blocked(client: string, now: nat): Option<RateError>
      reads this
    {
      if globalEnabled && Roll(global, SECOND, now).count >= globalRps then Some(GlobalRateExceeded)
      else if client !in counters && |counters| >= MAX_TRACKED_CLIENTS then Some(GlobalRateExceeded)
      else None
    }

    method CheckGlobal(now: nat) returns (error: Option<RateError>)
      modifies this`global
      ensures var b := Roll(old(global), SECOND, now);
              if !globalEnabled then error == None && global == old(global)
              else if b.count >= globalRps then error == Some(GlobalRateExceeded) && global == b
              else error == None && global == b.(count := b.count + 1)
    {
      error := None;
      if globalEnabled {
        if Since(now, global.last) >= SECOND {
          global := Bucket(0, now);
        }
        if global.count >= globalRps {
          error := Some(GlobalRateExceeded);
        } else {
          global := global.(count := global.count + 1);
        }
      }
    }

    /** Whatever the global part says, the client's entry is made, rolled, refilled and judged. */
    method CheckClient(limit: Limit, client: string, now: nat, found: Option<RateError>) returns (error: Option<RateError>)
      modifies this`counters
      ensures var full := client !in old(counters) && |old(counters)| >= MAX_TRACKED_CLIENTS;
              var blocked := if found.None? && full then Some(GlobalRateExceeded) else found;
              var r := CheckCounter(old(EntryAt(client, now)), limit, now, blocked);
              error == r.error && counters == old(counters)[client := r.counter]
    {
      error := found;
      if client !in counters && |counters| >= MAX_TRACKED_CLIENTS && error.None? {
        error := Some(GlobalRateExceeded);
      }
      var c := EntryAt(client, now);
      if c.cooldownUntil.Some? {
        if now < c.cooldownUntil.value {
          if error.None? {
            error := Some(CooldownActive);
          }
        } else {
          c := c.(cooldownUntil := None);
        }
      }
      c := UpdateCounters(c, now);
      c := RefillTokens(c, limit, now);
      if c.tokens == 0 && error.None? {
        error := Some(BurstExceeded);
      }
      if LimitHit(c, limit) && error.None? {
        error := Some(RateExceeded);
      }
      if error.Some? {
        counters := counters[client := c.(cooldownUntil := Some(now + limit.cooldown))];
      } else {
        counters := counters[client := Spend(c)];
      }
    }

    /** No other client's entry changes; a success is a success of the client's own counter. */
    method Check(operation: string, client: string, now: nat) returns (error: Option<RateError>)
      modifies this
      ensures operation !in limits ==> error == Some(UnknownOperation) && counters == old(counters)
      ensures operation in limits ==>
                var r := CheckCounter(old(EntryAt(client, now)), limits[operation], now, old(Blocked(client, now)));
                error == r.error && counters == old(counters)[client := r.counter]
    {
      error := CheckGlobal(now);
      if operation !in limits {
        return Some(UnknownOperation);
      }
      error := CheckClient(limits[operation], client, now, error);
    }

    method Remaining(operation: string, client: string, now: nat) returns (quota: Option<Quota>)
      modifies this`counters
      ensures quota.None? <==> operation !in limits || (client !in old(counters) && |old(counters)| >= MAX_TRACKED_CLIENTS)
      ensures quota.None? ==> counters == old(counters)
      ensures quota.Some? ==>
                var c := QueryCounter(old(EntryAt(client, now)), limits[operation], now);
                counters == old(counters)[client := c] && quota.value == QuotaOf(c, limits[operation], now)
    {
      if operation !in limits || (client !in counters && |counters| >= MAX_TRACKED_CLIENTS) {
        return None;
      }
      var limit := limits[operation];
      var c := RefillTokens(UpdateCounters(EntryAt(client, now), now), limit, now);
      counters := counters[client := c];
      quota := Some(QuotaOf(c, limit, now));
    }
  }
}
