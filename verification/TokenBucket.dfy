/**
 The adapter's cooperative rate limiter (`_TokenBucket` and `_next_sleep` of
 src/soctalk_adapter/main.py), with its floating-point numbers as reals.

 `Bucket` and the functions on it are the specification; the class `TokenBucket` updates its
 fields the way the source does.
 */
module TokenBuckets {

  datatype Bucket = Bucket(rate: real, burst: nat, tokens: real, last: real)

  ghost predicate Valid(b: Bucket) {
    b.rate >= 0.0 && b.burst >= 1 && 0.0 <= b.tokens <= b.burst as real
  }

  function MinReal(x: real, y: real): real {
    if x <= y then x else y
  }

  function Fresh(ratePerSec: real, burst: int, now: real): Bucket {
    var cap := if burst > 1 then burst else 1;
    Bucket(if ratePerSec > 0.0 then ratePerSec else 0.0, cap, cap as real, now)
  }

  /** Truncation toward zero. */
  function Trunc(x: real): int {
    if x >= 0.0 then x.Floor else -(-x).Floor
  }

  function Refill(b: Bucket, now: real): Bucket {
    b.(tokens := MinReal(b.burst as real, b.tokens + (now - b.last) * b.rate), last := now)
  }

  /** How many of `n` are admitted at time `now`. */
  function Allowed(b: Bucket, n: nat, now: real): int {
    if b.rate <= 0.0 then n
    else
      var whole := Trunc(Refill(b, now).tokens);
      if n <= whole then n else whole
  }

  function Take(b: Bucket, n: nat, now: real): Bucket {
    if b.rate <= 0.0 then b
    else
      var r := Refill(b, now);
      r.(tokens := r.tokens - Allowed(b, n, now) as real)
  }

  /** `seconds_until` also refills, unless the limiter is disabled. */
  function Peek(b: Bucket, now: real): Bucket {
    if b.rate <= 0.0 then b else Refill(b, now)
  }

  function SecondsUntil(b: Bucket, n: int, now: real): real {
    if b.rate <= 0.0 then 0.0
    else
      var wanted := if n <= b.burst then n else b.burst;
      var have := Refill(b, now).tokens;
      if have >= wanted as real then 0.0 else (wanted as real - have) / b.rate
  }

  class TokenBucket {
    var rate: real
    var burst: nat
    var tokens: real
    var last: real

    function Value(): Bucket
      reads this
    {
      Bucket(rate, burst, tokens, last)
    }

    constructor (ratePerSec: real, burst: int, now: real)
      ensures Value() == Fresh(ratePerSec, burst, now)
    {
      this.rate := if ratePerSec > 0.0 then ratePerSec else 0.0;
      this.burst := if burst > 1 then burst else 1;
      this.tokens := (if burst > 1 then burst else 1) as real;
      this.last := now;
    }

    method DoRefill(now: real)
      modifies this
      ensures Value() == Refill(old(Value()), now)
    {
      tokens := MinReal(burst as real, tokens + (now - last) * rate);
      last := now;
    }

    method DoTake(n: nat, now: real) returns (allowed: int, excess: int)
      modifies this
      ensures Value() == Take(old(Value()), n, now)
      ensures allowed == Allowed(old(Value()), n, now) && excess == n - allowed
    {
      if rate <= 0.0 {
        return n, 0;
      }
      DoRefill(now);
      var whole := Trunc(tokens);
      allowed := if n <= whole then n else whole;
      tokens := tokens - allowed as real;
      excess := n - allowed;
    }

    method DoSecondsUntil(n: int, now: real) returns (seconds: real)
      modifies this
      ensures Value() == Peek(old(Value()), now)
      ensures seconds == SecondsUntil(old(Value()), n, now)
    {
      if rate <= 0.0 {
        return 0.0;
      }
      DoRefill(now);
      var wanted := if n <= burst then n else burst;
      if tokens >= wanted as real {
        return 0.0;
      }
      seconds := (wanted as real - tokens) / rate;
    }
  }

  // ----- one operation

  lemma {:induction false} RefillStaysWithinBurst(b: Bucket, now: real)
    requires Valid(b) && b.last <= now
    ensures Valid(Refill(b, now)) && Refill(b, now).tokens >= b.tokens
  {
    var gained := (now - b.last) * b.rate;
    NonNegative(now - b.last, b.rate);
    assert Refill(b, now).tokens == MinReal(b.burst as real, b.tokens + gained);
  }

  lemma {:induction false} NonNegative(x: real, r: real)
    requires x >= 0.0 && r >= 0.0
    ensures x * r >= 0.0
  {
  }

  /** 0 <= tokens <= burst is kept, and between 0 and n events are admitted. */
  lemma {:induction false} TakeStaysWithinBurst(b: Bucket, n: nat, now: real)
    requires Valid(b) && b.last <= now
    ensures Valid(Take(b, n, now)) && 0 <= Allowed(b, n, now) <= n
    ensures b.rate > 0.0 ==> Allowed(b, n, now) as real <= Refill(b, now).tokens
  {
    RefillStaysWithinBurst(b, now);
  }

  /** A whole token admits at least one event. */
  lemma {:induction false} WholeTokenAdmits(b: Bucket, n: nat, now: real)
    requires Valid(b) && b.last <= now && n > 0
    ensures Allowed(b, n, now) >= 1 <==> b.rate <= 0.0 || Refill(b, now).tokens >= 1.0
  {
    RefillStaysWithinBurst(b, now);
  }

  // ----- runs of operations

  datatype Op = TakeOp(n: nat, now: real) | UntilOp(wanted: int, now: real)

  function Apply(b: Bucket, op: Op): Bucket {
    match op
    case TakeOp(n, now) => Take(b, n, now)
    case UntilOp(_, now) => Peek(b, now)
  }

  function AllowedBy(b: Bucket, op: Op): int {
    match op
    case TakeOp(n, now) => Allowed(b, n, now)
    case UntilOp(_, _) => 0
  }

  function After(b: Bucket, ops: seq<Op>, k: nat): Bucket
    requires k <= |ops|
  {
    if k == 0 then b else Apply(After(b, ops, k - 1), ops[k - 1])
  }

  /** The events admitted by operations i up to k. */
  function Admitted(b: Bucket, ops: seq<Op>, i: nat, k: nat): int
    requires i <= k <= |ops|
    decreases k
  {
    if i == k then 0 else Admitted(b, ops, i, k - 1) + AllowedBy(After(b, ops, k - 1), ops[k - 1])
  }

  ghost predicate Monotone(b: Bucket, ops: seq<Op>) {
    && (ops != [] ==> b.last <= ops[0].now)
    && forall i :: 0 <= i < |ops| - 1 ==> ops[i].now <= ops[i + 1].now
  }

  lemma {:induction false} RunStaysValid(b: Bucket, ops: seq<Op>, k: nat)
    requires Valid(b) && Monotone(b, ops) && k <= |ops|
    ensures Valid(After(b, ops, k)) && After(b, ops, k).rate == b.rate && After(b, ops, k).burst == b.burst
    ensures k < |ops| ==> After(b, ops, k).last <= ops[k].now
    ensures b.rate > 0.0 && k > 0 ==> After(b, ops, k).last == ops[k - 1].now
  {
    if k > 0 {
      RunStaysValid(b, ops, k - 1);
      var c, op := After(b, ops, k - 1), ops[k - 1];
      RefillStaysWithinBurst(c, op.now);
      match op
      case TakeOp(n, now) => TakeStaysWithinBurst(c, n, now);
      case UntilOp(_, _) =>
      if b.rate <= 0.0 && k < |ops| {
        DisabledNeverMoves(b, ops, k);
        FirstIsEarliest(b, ops, k);
      }
    }
  }

  lemma {:induction false} DisabledNeverMoves(b: Bucket, ops: seq<Op>, k: nat)
    requires b.rate <= 0.0 && k <= |ops|
    ensures After(b, ops, k) == b
  {
    if k > 0 {
      DisabledNeverMoves(b, ops, k - 1);
    }
  }

  lemma {:induction false} FirstIsEarliest(b: Bucket, ops: seq<Op>, k: nat)
    requires Monotone(b, ops) && k < |ops|
    ensures b.last <= ops[k].now
  {
    if k > 0 {
      FirstIsEarliest(b, ops, k - 1);
      assert ops[k - 1].now <= ops[k - 1 + 1].now;
    }
  }

  lemma {:induction false} Distribute(x: real, y: real, r: real)
    ensures x * r + y * r == (x + y) * r
  {
  }

  /** What one operation admits, plus what it leaves, is at most what there was plus the refill. */
  lemma {:induction false} OneOperation(b: Bucket, op: Op)
    requires Valid(b) && b.rate > 0.0 && b.last <= op.now
    ensures AllowedBy(b, op) as real + Apply(b, op).tokens <= b.tokens + (op.now - b.last) * b.rate
    ensures AllowedBy(b, op) as real + Apply(b, op).tokens <= b.burst as real
  {
  }

  lemma {:induction false} Combine(admitted: real, more: real, before: real, after: real, burst: real, x: real,
      y: real, r: real)
    requires admitted + before <= burst + x * r
    requires more + after <= before + y * r
    ensures admitted + more + after <= burst + (x + y) * r
  {
    Distribute(x, y, r);
  }

  lemma {:induction false} Potential(b: Bucket, ops: seq<Op>, i: nat, k: nat)
    requires Valid(b) && Monotone(b, ops) && b.rate > 0.0 && i < k <= |ops|
    ensures Admitted(b, ops, i, k) as real + After(b, ops, k).tokens <= b.burst as real
            + (ops[k - 1].now - ops[i].now) * b.rate
    decreases k
  {
    hide Apply, AllowedBy;
    RunStaysValid(b, ops, k - 1);
    var c, op := After(b, ops, k - 1), ops[k - 1];
    OneOperation(c, op);
    if i == k - 1 {
      assert Admitted(b, ops, i, i) == 0;
      assert (ops[k - 1].now - ops[i].now) * b.rate == 0.0;
    } else {
      Potential(b, ops, i, k - 1);
      var x, y := ops[k - 2].now - ops[i].now, op.now - ops[k - 2].now;
      Combine(Admitted(b, ops, i, k - 1) as real, AllowedBy(c, op) as real, c.tokens, Apply(c, op).tokens,
          b.burst as real, x, y, b.rate);
      assert x + y == ops[k - 1].now - ops[i].now;
    }
  }

  /** Over any stretch of any run of an enabled limiter, at most burst + rate * elapsed events are
      admitted. */
  lemma {:induction false} AdmissionBound(b: Bucket, ops: seq<Op>, i: nat, k: nat)
    requires Valid(b) && Monotone(b, ops) && b.rate > 0.0 && i < k <= |ops|
    ensures Admitted(b, ops, i, k) as real <= b.burst as real + (ops[k - 1].now - ops[i].now) * b.rate
  {
    Potential(b, ops, i, k);
    RunStaysValid(b, ops, k);
  }

  /** A rate of zero disables the limiter: it admits whatever is asked, so no such bound holds. */
  lemma {:induction false} DisabledAdmitsEverything(b: Bucket, n: nat, now: real)
    requires Valid(b)
    ensures b.rate <= 0.0 <==> forall m: nat :: Allowed(b, m, now) == m
  {
    if b.rate > 0.0 {
      var m := b.burst + 1;
      assert Refill(b, now).tokens <= b.burst as real;
      assert Trunc(Refill(b, now).tokens) <= b.burst by {
        TruncAtMost(Refill(b, now).tokens, b.burst);
      }
      assert Allowed(b, m, now) != m;
    }
  }

  lemma {:induction false} TruncAtMost(x: real, n: nat)
    requires x <= n as real
    ensures Trunc(x) <= n
  {
  }

  // ----- waiting

  lemma {:induction false} MulDiv(x: real, r: real)
    requires r > 0.0
    ensures x / r * r == x
    ensures x >= 0.0 ==> x / r >= 0.0
  {
  }

  lemma {:induction false} RefillAfter(r: Bucket, wait: real)
    ensures Refill(r, r.last + wait).tokens == MinReal(r.burst as real, r.tokens + wait * r.rate)
  {
    assert r.last + wait - r.last == wait;
  }

  /** The tokens once the wait is over. */
  lemma {:induction false} TokensAfterWait(b: Bucket, n: nat, now: real)
    requires Valid(b) && b.last <= now && b.rate > 0.0
    ensures var wanted := (if n <= b.burst then n else b.burst) as real;
      var have := Refill(b, now).tokens;
      && SecondsUntil(b, n, now) >= 0.0
      && Refill(Refill(b, now), now + SecondsUntil(b, n, now)).tokens == if have >= wanted then have else wanted
  {
    RefillStaysWithinBurst(b, now);
    var r, s := Refill(b, now), SecondsUntil(b, n, now);
    hide Refill;
    RefillAfter(r, s);
    var wanted: nat := if n <= b.burst then n else b.burst;
    if r.tokens < wanted as real {
      MulDiv(wanted as real - r.tokens, b.rate);
    }
  }

  /** Waiting exactly `seconds_until(n)` makes the next take of n admit min(n, burst), or all of n when
      the limiter is disabled. */
  lemma {:induction false} WaitThenTake(b: Bucket, n: nat, now: real)
    requires Valid(b) && b.last <= now
    ensures SecondsUntil(b, n, now) >= 0.0
    ensures Allowed(Peek(b, now), n, now + SecondsUntil(b, n, now)) == if b.rate <= 0.0 || n <= b.burst then n
            else b.burst
  {
    if b.rate > 0.0 {
      TokensAfterWait(b, n, now);
      RefillStaysWithinBurst(b, now);
      hide SecondsUntil, Refill;
      TruncAtMost(Refill(Refill(b, now), now + SecondsUntil(b, n, now)).tokens, b.burst);
    }
  }

  /** A shorter wait is not enough. */
  lemma {:induction false} ShorterWaitIsTooShort(b: Bucket, n: nat, now: real, wait: real)
    requires Valid(b) && b.last <= now && b.rate > 0.0
    requires 0.0 <= wait < SecondsUntil(b, n, now)
    ensures Allowed(Peek(b, now), n, now + wait) < if n <= b.burst then n else b.burst
  {
    RefillStaysWithinBurst(b, now);
    var r := Refill(b, now);
    var wanted: nat := if n <= b.burst then n else b.burst;
    assert r.last == now && r.rate == b.rate && r.burst == b.burst;
    ShortOf(wanted as real - r.tokens, r.rate, wait);
    RefillAfter(r, wait);
    RefillStaysWithinBurst(r, now + wait);
    var after := Refill(r, now + wait).tokens;
    hide Refill, SecondsUntil, Trunc;
    assert after < wanted as real;
    TruncBelow(after, wanted);
  }

  lemma {:induction false} TruncBelow(x: real, n: nat)
    requires 0.0 <= x < n as real
    ensures Trunc(x) < n
  {
  }

  lemma {:induction false} ShortOf(x: real, r: real, wait: real)
    requires r > 0.0 && wait < x / r
    ensures wait * r < x
  {
    MulDiv(x, r);
    ScaleLess(wait, x / r, r);
  }

  lemma {:induction false} ScaleLess(x: real, y: real, r: real)
    requires r > 0.0 && x < y
    ensures x * r < y * r
  {
    assert (y - x) * r > 0.0;
  }

  // ----- pacing

  /** `_next_sleep`: the regular interval, or less when a tail was deferred and tokens come sooner. */
  function NextSleep(b: Bucket, deferred: int, interval: real, now: real): real {
    if deferred <= 0 then interval
    else
      var wanted := if deferred <= b.burst then deferred else b.burst;
      var w := MinReal(interval, SecondsUntil(b, wanted, now));
      if w >= 0.0 then w else 0.0
  }

  /** The bucket once the sleep is computed: asking for the wait refills it. */
  function Paced(b: Bucket, deferred: int, now: real): Bucket {
    if deferred <= 0 then b else Peek(b, now)
  }

  /** Refilling in between, as the pacing does, changes nothing for the next poll. */
  lemma {:induction false} RefillTwice(b: Bucket, s: real, t: real)
    requires Valid(b) && b.last <= s <= t
    ensures Refill(Refill(b, s), t) == Refill(b, t)
  {
    NonNegative(t - s, b.rate);
    Distribute(s - b.last, t - s, b.rate);
    assert s - b.last + (t - s) == t - b.last;
  }

  method ComputeNextSleep(bucket: TokenBucket, deferred: int, interval: real, now: real) returns (sleep: real)
    modifies bucket
    ensures sleep == NextSleep(old(bucket.Value()), deferred, interval, now)
    ensures bucket.Value() == Paced(old(bucket.Value()), deferred, now)
  {
    if deferred <= 0 {
      return interval;
    }
    var want := if deferred <= bucket.burst then deferred else bucket.burst;
    var seconds := bucket.DoSecondsUntil(want, now);
    sleep := MinReal(interval, seconds);
    if sleep < 0.0 {
      sleep := 0.0;
    }
  }

  /** After a poll that deferred, the loop sleeps at most the interval; if it sleeps less, then the next
      take admits as much of the deferred tail as the bucket can ever hold. */
  lemma {:induction false} EarlyRepollIsWorthIt(b: Bucket, deferred: nat, interval: real, now: real)
    requires Valid(b) && b.last <= now && interval >= 0.0 && deferred > 0
    ensures var sleep := NextSleep(b, deferred, interval, now);
      && 0.0 <= sleep <= interval
      && (sleep < interval ==>
            Allowed(Peek(b, now), deferred, now + sleep) == if b.rate <= 0.0 || deferred <= b.burst then deferred
                else b.burst)
  {
    var wanted: nat := if deferred <= b.burst then deferred else b.burst;
    WaitThenTake(b, wanted, now);
    WaitThenTake(b, deferred, now);
    assert SecondsUntil(b, wanted, now) == SecondsUntil(b, deferred, now);
  }
}
