/**
 What the setup wizard's limiter promises over whole runs (setup-wizard/auth.go, called by
 `handleAuth` of setup-wizard/handlers.go).

 The lock is held per call, not per request: a handler asks `allowAttempt`, reads the form and only
 then records the outcome, so requests of one address may overlap.  The bound `c` on the allowed
 requests of one address that are in flight at a time decides which promises hold.
 */
module LimiterRuns {
  import opened RateLimiter

  /** `Drop` ends an allowed request whose form cannot be read: nothing is recorded. */
  datatype Event =
    | Attempt(ip: Ip, now: int)
    | Failure(ip: Ip, recorded: int, after: int)
    | Success(ip: Ip, at: int)
    | Drop(ip: Ip)

  /** The limiter as seen from one address: `fails` are the failures of that address since its last
      success, `inFlight` counts its allowed requests without an outcome yet, `lastAttempt` is the time
      of its last attempt and `clock` the time of the last event of any address. */
  datatype View = View(limits: Limits, fails: seq<int>, inFlight: int, lastAttempt: int, clock: int)

  function Observe(v: View, ip: Ip, e: Event): View {
    match e
    case Attempt(jp, now) =>
      var (l, verdict) := Allow(v.limits, jp, now);
      if jp == ip then View(l, v.fails, v.inFlight + (if verdict.ok then 1 else 0), now, now)
      else v.(limits := l, clock := now)
    case Failure(jp, recorded, after) =>
      var l := Fail(v.limits, jp, recorded, after);
      if jp == ip then View(l, v.fails + [recorded], v.inFlight - 1, v.lastAttempt, after)
      else v.(limits := l, clock := after)
    case Success(jp, at) =>
      var l := Succeed(v.limits, jp);
      if jp == ip then View(l, [], v.inFlight - 1, v.lastAttempt, at) else v.(limits := l, clock := at)
    case Drop(jp) =>
      if jp == ip then v.(inFlight := v.inFlight - 1) else v
  }

  /** The clock never runs backwards, every outcome of `ip` is that of an allowed request, and at most c of
      its allowed requests are in flight. */
  predicate Fits(v: View, ip: Ip, e: Event, c: nat) {
    && 0 <= Observe(v, ip, e).inFlight <= c
    && match e
       case Attempt(_, now) => v.clock <= now
       case Failure(_, recorded, after) => v.clock <= recorded <= after
       case Success(_, at) => v.clock <= at
       case Drop(_) => true
  }

  function After(start: int, events: seq<Event>, n: nat, ip: Ip): View
    requires n <= |events|
  {
    if n == 0 then View(Limits(map[], map[]), [], 0, start, start)
    else Observe(After(start, events, n - 1, ip), ip, events[n - 1])
  }

  /** The first n events are a run in which `ip` has at most c allowed requests in flight. */
  ghost predicate Proper(start: int, events: seq<Event>, n: nat, ip: Ip, c: nat)
    requires n <= |events|
  {
    forall i :: 0 <= i < n ==> Fits(After(start, events, i, ip), ip, events[i], c)
  }

  function Final(start: int, events: seq<Event>, ip: Ip): View {
    After(start, events, |events|, ip)
  }

  // ----- what holds in every state of a run

  ghost predicate Ordered(v: View) {
    && v.lastAttempt <= v.clock
    && (forall i :: 0 <= i < |v.fails| ==> v.fails[i] <= v.clock)
    && (forall i, j :: 0 <= i < j < |v.fails| ==> v.fails[i] <= v.fails[j])
  }

  /** The kept history is the recent end of the failures; what was dropped is an hour old. */
  ghost predicate Suffix(v: View, ip: Ip) {
    var h := History(v.limits, ip);
    && |h| <= |v.fails|
    && (forall i :: 0 <= i < |h| ==> h[i] == v.fails[|v.fails| - |h| + i])
    && forall i :: 0 <= i < |v.fails| - |h| ==> v.fails[i] <= v.lastAttempt - HOUR
  }

  /** Failure p was the tenth within an hour. */
  predicate FillsHour(fails: seq<int>, p: int) {
    MAX_FAILURES - 1 <= p < |fails| && fails[p] - fails[p - (MAX_FAILURES - 1)] < HOUR
  }

  /** The tenth failure within an hour blocks for an hour; until then only what was in flight can fail. */
  ghost predicate Drains(v: View, ip: Ip, c: nat) {
    forall p :: FillsHour(v.fails, p) ==>
      || v.lastAttempt >= v.fails[p] + HOUR
      || (ip in v.limits.blocked && v.limits.blocked[ip] >= v.fails[p] + HOUR && |v.fails| - p + v.inFlight <= c)
  }

  /** Once ten failures fill an hour, all but the next c - 1 failures come an hour later. */
  ghost predicate Bounded(fails: seq<int>, c: nat) {
    forall p, j :: FillsHour(fails, p) && p + c <= j < |fails| ==> fails[j] >= fails[p] + HOUR
  }

  ghost predicate Invariant(v: View, ip: Ip, c: nat) {
    0 <= v.inFlight <= c && Ordered(v) && Suffix(v, ip) && Drains(v, ip, c) && Bounded(v.fails, c)
  }

  /** What one address does leaves every other address's history and block alone. */
  lemma {:induction false} OthersUntouched(v: View, ip: Ip, e: Event)
    requires e.ip != ip
    ensures var v' := Observe(v, ip, e);
      && History(v'.limits, ip) == History(v.limits, ip)
      && (ip in v'.limits.blocked <==> ip in v.limits.blocked)
      && (ip in v.limits.blocked ==> v'.limits.blocked[ip] == v.limits.blocked[ip])
      && v'.fails == v.fails && v'.inFlight == v.inFlight && v'.lastAttempt == v.lastAttempt
  {
  }

  lemma {:induction false} PruneAllOld(h: seq<int>, cutoff: int)
    requires forall i :: 0 <= i < |h| ==> h[i] <= cutoff
    ensures Prune(h, cutoff) == []
  {
    if h != [] {
      PruneAllOld(h[..|h| - 1], cutoff);
    }
  }

  /** On an ordered history, pruning keeps a suffix. */
  lemma {:induction false} PruneIsSuffix(h: seq<int>, cutoff: int) returns (d: nat)
    requires forall i, j :: 0 <= i < j < |h| ==> h[i] <= h[j]
    ensures d <= |h| && Prune(h, cutoff) == h[d..]
    ensures forall i :: 0 <= i < d ==> h[i] <= cutoff
    ensures forall i :: d <= i < |h| ==> h[i] > cutoff
  {
    if h == [] || h[|h| - 1] <= cutoff {
      PruneAllOld(h, cutoff);
      d := |h|;
    } else {
      var init := h[..|h| - 1];
      d := PruneIsSuffix(init, cutoff);
      assert h[d..] == init[d..] + [h[|h| - 1]];
    }
  }

  lemma GateRefuses(pruned: seq<int>, now: int)
    requires !Gate(pruned, now).ok
    ensures pruned != [] && Gate(pruned, now).retryAfter == MIN_INTERVAL - (now - pruned[|pruned| - 1]) > 0
  {
  }

  /** An attempt is let through exactly when no block stands and every recorded failure is 30 seconds back. */
  lemma {:induction false} LetThroughIff(l: Limits, ip: Ip, t: int)
    requires forall i, j :: 0 <= i < j < |History(l, ip)| ==> History(l, ip)[i] <= History(l, ip)[j]
    ensures Allow(l, ip, t).1.ok
       <==> && !(ip in l.blocked && t < l.blocked[ip])
            && forall i :: 0 <= i < |History(l, ip)| ==> t - History(l, ip)[i] >= MIN_INTERVAL
  {
    hide Prune;
    var h := History(l, ip);
    var d := PruneIsSuffix(h, t - HOUR);
    if d < |h| {
      assert h[d..][|h| - d - 1] == h[|h| - 1];
    }
  }

  /** The wait a refusal names is exact: an attempt t of the same address with no failure in between is let
      through exactly when that wait is over and every recorded failure is 30 seconds back, which after a refusal
      for spacing is one and the same. */
  lemma {:induction false} RetryAfterIsExact(l: Limits, ip: Ip, now: int, t: int)
    requires forall i, j :: 0 <= i < j < |History(l, ip)| ==> History(l, ip)[i] <= History(l, ip)[j]
    requires now <= t && !Allow(l, ip, now).1.ok
    ensures var (l', refusal) := Allow(l, ip, now);
      var again := Allow(l', ip, t).1.ok;
      && refusal.retryAfter > 0
      && (again <==> t >= now + refusal.retryAfter
                     && forall i :: 0 <= i < |History(l, ip)| ==> t - History(l, ip)[i] >= MIN_INTERVAL)
      && (!(ip in l.blocked && now < l.blocked[ip]) ==> (again <==> t >= now + refusal.retryAfter))
  {
    hide Prune, Gate;
    var h := History(l, ip);
    var (l', refusal) := Allow(l, ip, now);
    LetThroughIff(l, ip, now);
    LetThroughIff(l, ip, t);
    if !(ip in l.blocked && now < l.blocked[ip]) {
      var d := PruneIsSuffix(h, now - HOUR);
      assert History(l', ip) == h[d..];
      LetThroughIff(l', ip, t);
      assert refusal.retryAfter == MIN_INTERVAL - (now - h[|h| - 1]) by {
        assert refusal == Gate(h[d..], now);
        GateRefuses(h[d..], now);
      }
      assert h[d..][|h| - d - 1] == h[|h| - 1];
    }
  }

  ghost predicate Blocks(v: View, ip: Ip, now: int) {
    ip in v.limits.blocked && now < v.limits.blocked[ip]
  }

  /** What an attempt leaves: everything as it was while a block stands, otherwise the entries of the
      last hour and no block. */
  ghost predicate AttemptOutcome(v: View, v': View, ip: Ip, now: int, d: nat) {
    var h, h' := History(v.limits, ip), History(v'.limits, ip);
    && v'.fails == v.fails && v'.lastAttempt == v'.clock == now && v.clock <= now
    && d <= |h|
    && if Blocks(v, ip, now) then v'.limits == v.limits && v'.inFlight == v.inFlight
       else
         && ip !in v'.limits.blocked
         && h' == h[d..]
         && (forall i :: 0 <= i < d ==> h[i] <= now - HOUR)
         && (forall i :: d <= i < |h| ==> h[i] > now - HOUR)
         && v'.inFlight == v.inFlight + (if h' == [] || now - h'[|h'| - 1] >= MIN_INTERVAL then 1 else 0)
  }

  lemma {:induction false} AttemptEffect(v: View, ip: Ip, now: int) returns (d: nat)
    requires Ordered(v) && Suffix(v, ip) && v.clock <= now
    ensures AttemptOutcome(v, Observe(v, ip, Attempt(ip, now)), ip, now, d)
  {
    hide Prune;
    var h, f := History(v.limits, ip), v.fails;
    d := PruneIsSuffix(h, now - HOUR);
  }

  /** The entries kept by an attempt are still the recent end, and those dropped are an hour old. */
  lemma {:induction false} AttemptKeepsSuffix(v: View, v': View, ip: Ip, now: int, d: nat)
    requires Suffix(v, ip) && Ordered(v) && AttemptOutcome(v, v', ip, now, d)
    ensures Suffix(v', ip)
  {
    var f, h := v.fails, History(v.limits, ip);
    if !Blocks(v, ip, now) {
      forall i | |f| - |h| <= i < |f| - |h| + d ensures f[i] <= now - HOUR {
        assert f[i] == h[i - (|f| - |h|)];
      }
      assert |History(v'.limits, ip)| == |h| - d;
      hide History;
    }
  }

  lemma {:induction false} AttemptKeepsDrains(v: View, v': View, ip: Ip, now: int, d: nat, c: nat)
    requires Drains(v, ip, c) && Ordered(v) && AttemptOutcome(v, v', ip, now, d)
    ensures Drains(v', ip, c)
  {
    hide FillsHour;
  }

  lemma {:induction false} AttemptKeeps(v: View, ip: Ip, now: int, c: nat)
    requires Invariant(v, ip, c) && Fits(v, ip, Attempt(ip, now), c)
    ensures Invariant(Observe(v, ip, Attempt(ip, now)), ip, c)
  {
    hide Observe, Suffix, Drains, Bounded, Allow;
    var d := AttemptEffect(v, ip, now);
    var v' := Observe(v, ip, Attempt(ip, now));
    AttemptKeepsSuffix(v, v', ip, now, d);
    AttemptKeepsDrains(v, v', ip, now, d, c);
  }

  ghost predicate FailureOutcome(v: View, v': View, ip: Ip, recorded: int, after: int) {
    && v'.fails == v.fails + [recorded] && v'.inFlight == v.inFlight - 1 && v'.lastAttempt == v.lastAttempt
    && v'.clock == after && v.clock <= recorded <= after
    && History(v'.limits, ip) == History(v.limits, ip) + [recorded]
    && if |History(v.limits, ip)| + 1 >= MAX_FAILURES
       then ip in v'.limits.blocked && v'.limits.blocked[ip] == after + HOUR
       else v'.limits.blocked == v.limits.blocked
  }

  lemma {:induction false} FailureEffect(v: View, ip: Ip, recorded: int, after: int)
    requires v.clock <= recorded <= after
    ensures FailureOutcome(v, Observe(v, ip, Failure(ip, recorded, after)), ip, recorded, after)
  {
  }

  lemma {:induction false} FailureKeepsSuffix(v: View, v': View, ip: Ip, recorded: int, after: int)
    requires Suffix(v, ip) && FailureOutcome(v, v', ip, recorded, after)
    ensures Suffix(v', ip)
  {
  }

  /** The tenth failure within an hour is recorded on a full history, so it blocks. */
  lemma {:induction false} FailureKeepsDrains(v: View, v': View, ip: Ip, recorded: int, after: int, c: nat)
    requires Ordered(v) && Suffix(v, ip) && Drains(v, ip, c) && 1 <= v.inFlight <= c
    requires FailureOutcome(v, v', ip, recorded, after)
    ensures Drains(v', ip, c)
  {
    var f, h, n := v.fails, History(v.limits, ip), |v.fails|;
    forall p | FillsHour(v'.fails, p)
      ensures || v'.lastAttempt >= v'.fails[p] + HOUR
              || (&& ip in v'.limits.blocked && v'.limits.blocked[ip] >= v'.fails[p] + HOUR
                  && |v'.fails| - p + v'.inFlight <= c)
    {
      if p < n {
        assert FillsHour(f, p);
      } else {
        var first := n - (MAX_FAILURES - 1);
        assert f[first] > recorded - HOUR;
        assert |h| >= MAX_FAILURES - 1;
      }
    }
  }

  lemma {:induction false} FailureKeepsBounded(v: View, ip: Ip, recorded: int, c: nat)
    requires Ordered(v) && Drains(v, ip, c) && Bounded(v.fails, c) && 1 <= v.inFlight <= c && v.clock <= recorded
    ensures Bounded(v.fails + [recorded], c)
  {
    var f, f' := v.fails, v.fails + [recorded];
    forall p, j | FillsHour(f', p) && p + c <= j < |f'| ensures f'[j] >= f'[p] + HOUR {
      if p < |f| {
        assert FillsHour(f, p);
      }
    }
  }

  lemma {:induction false} FailureKeeps(v: View, ip: Ip, recorded: int, after: int, c: nat)
    requires Invariant(v, ip, c) && Fits(v, ip, Failure(ip, recorded, after), c)
    ensures Invariant(Observe(v, ip, Failure(ip, recorded, after)), ip, c)
  {
    var v' := Observe(v, ip, Failure(ip, recorded, after));
    FailureEffect(v, ip, recorded, after);
    hide Observe, Suffix, Drains, Bounded;
    FailureKeepsBounded(v, ip, recorded, c);
    FailureKeepsSuffix(v, v', ip, recorded, after);
    FailureKeepsDrains(v, v', ip, recorded, after, c);
  }

  lemma {:induction false} OthersKeep(v: View, v': View, ip: Ip, c: nat)
    requires Invariant(v, ip, c) && v.clock <= v'.clock
    requires History(v'.limits, ip) == History(v.limits, ip)
    requires (ip in v'.limits.blocked <==> ip in v.limits.blocked)
    requires (ip in v.limits.blocked ==> v'.limits.blocked[ip] == v.limits.blocked[ip])
    requires v'.fails == v.fails && v'.inFlight == v.inFlight && v'.lastAttempt == v.lastAttempt
    ensures Invariant(v', ip, c)
  {
  }

  lemma {:induction false} EventKeeps(v: View, ip: Ip, e: Event, c: nat)
    requires Invariant(v, ip, c) && Fits(v, ip, e, c)
    ensures Invariant(Observe(v, ip, e), ip, c)
  {
    hide Allow, Fail, Invariant;
    if e.ip != ip {
      OthersUntouched(v, ip, e);
      OthersKeep(v, Observe(v, ip, e), ip, c);
    } else {
      match e
      case Attempt(_, now) => AttemptKeeps(v, ip, now, c);
      case Failure(_, recorded, after) => FailureKeeps(v, ip, recorded, after, c);
      case Success(_, at) => SuccessKeeps(v, ip, at, c);
      case Drop(_) => DropKeeps(v, ip, c);
    }
  }

  lemma {:induction false} SuccessKeeps(v: View, ip: Ip, at: int, c: nat)
    requires Invariant(v, ip, c) && Fits(v, ip, Success(ip, at), c)
    ensures Invariant(Observe(v, ip, Success(ip, at)), ip, c)
  {
  }

  lemma {:induction false} DropKeeps(v: View, ip: Ip, c: nat)
    requires Invariant(v, ip, c) && Fits(v, ip, Drop(ip), c)
    ensures Invariant(Observe(v, ip, Drop(ip)), ip, c)
  {
  }

  lemma {:induction false} RunKeeps(start: int, events: seq<Event>, n: nat, ip: Ip, c: nat)
    requires n <= |events| && Proper(start, events, n, ip, c)
    ensures Invariant(After(start, events, n, ip), ip, c)
  {
    hide Observe, Fits;
    if n > 0 {
      RunKeeps(start, events, n - 1, ip, c);
      EventKeeps(After(start, events, n - 1, ip), ip, events[n - 1], c);
    }
  }

  /** Failures i to j lie within an hour. */
  predicate WithinHour(fails: seq<int>, i: int, j: int) {
    0 <= i <= j < |fails| && fails[j] - fails[i] < HOUR
  }

  lemma {:induction false} BoundedFillsAnHour(fails: seq<int>, c: nat, i: int, j: int)
    requires Bounded(fails, c) && WithinHour(fails, i, j) && c >= 1
    requires forall k, l :: 0 <= k < l < |fails| ==> fails[k] <= fails[l]
    ensures j - i + 1 <= MAX_FAILURES - 1 + c
  {
    var p := i + MAX_FAILURES - 1;
    if p <= j {
      assert fails[p] <= fails[j];
      assert FillsHour(fails, p);
    }
  }

  /** Over any run with at most c requests of the address in flight, whatever other addresses do: an hour
      without a success holds at most 9 + c failures; and once ten of them fill an hour, all but the next
      c - 1 come an hour after the tenth. */
  lemma {:induction false} FailureBudget(start: int, events: seq<Event>, ip: Ip, c: nat, i: int, j: int)
    requires Proper(start, events, |events|, ip, c) && WithinHour(Final(start, events, ip).fails, i, j)
    ensures j - i + 1 <= MAX_FAILURES - 1 + c
    ensures Bounded(Final(start, events, ip).fails, c)
  {
    RunKeeps(start, events, |events|, ip, c);
    NoneInFlight(start, events, ip, c);
    var v := Final(start, events, ip);
    hide After, Proper, Drains, Suffix, Bounded;
    BoundedFillsAnHour(v.fails, c, i, j);
  }

  /** Without a request in flight nothing fails. */
  lemma {:induction false} NoneInFlight(start: int, events: seq<Event>, ip: Ip, c: nat)
    requires Proper(start, events, |events|, ip, c)
    ensures c == 0 ==> Final(start, events, ip).fails == []
  {
    if c == 0 {
      NothingFails(start, events, |events|, ip);
    }
  }

  lemma {:induction false} NothingFails(start: int, events: seq<Event>, n: nat, ip: Ip)
    requires n <= |events| && Proper(start, events, n, ip, 0)
    ensures After(start, events, n, ip).fails == [] && After(start, events, n, ip).inFlight == 0
  {
    hide Allow, Fail;
    if n > 0 {
      NothingFails(start, events, n - 1, ip);
    }
  }

  // ----- one request at a time: failures are spaced

  ghost predicate Spaced(fails: seq<int>) {
    forall i, j :: 0 <= i < j < |fails| ==> fails[j] - fails[i] >= MIN_INTERVAL
  }

  ghost predicate Sequential(v: View) {
    Spaced(v.fails) && (v.inFlight >= 1 && v.fails != [] ==> v.lastAttempt >= v.fails[|v.fails| - 1] + MIN_INTERVAL)
  }

  lemma {:induction false} AttemptKeepsSequential(v: View, ip: Ip, now: int)
    requires Invariant(v, ip, 1) && Sequential(v) && v.clock <= now
    ensures Sequential(Observe(v, ip, Attempt(ip, now)))
  {
    hide Observe, Drains, Bounded, Allow;
    var d := AttemptEffect(v, ip, now);
    var f, h := v.fails, History(v.limits, ip);
    if h != [] {
      assert h[|h| - 1] == f[|f| - 1];
    }
    hide Suffix;
  }

  lemma {:induction false} FailureKeepsSequential(v: View, ip: Ip, recorded: int, after: int)
    requires Ordered(v) && v.inFlight == 1 && Sequential(v) && v.clock <= recorded <= after
    ensures Sequential(Observe(v, ip, Failure(ip, recorded, after)))
  {
    FailureEffect(v, ip, recorded, after);
    hide Observe;
    var f := v.fails;
    forall i | 0 <= i < |f| ensures recorded - f[i] >= MIN_INTERVAL {
      assert f[i] <= f[|f| - 1];
    }
  }

  lemma {:induction false} EventKeepsSequential(v: View, ip: Ip, e: Event)
    requires Invariant(v, ip, 1) && Sequential(v) && Fits(v, ip, e, 1)
    ensures Sequential(Observe(v, ip, e))
  {
    hide Allow, Fail, Drains, Bounded, Suffix;
    if e.ip != ip {
      OthersUntouched(v, ip, e);
    } else {
      match e
      case Attempt(_, now) => AttemptKeepsSequential(v, ip, now);
      case Failure(_, recorded, after) => FailureKeepsSequential(v, ip, recorded, after);
      case _ =>
    }
  }

  lemma {:induction false} RunIsSequential(start: int, events: seq<Event>, n: nat, ip: Ip)
    requires n <= |events| && Proper(start, events, n, ip, 1)
    ensures Sequential(After(start, events, n, ip))
  {
    hide Observe, Fits, Sequential, Invariant;
    if n == 0 {
      NothingIsSequential(start, ip);
    } else {
      RunIsSequential(start, events, n - 1, ip);
      RunKeeps(start, events, n - 1, ip, 1);
      EventKeepsSequential(After(start, events, n - 1, ip), ip, events[n - 1]);
    }
  }

  lemma {:induction false} NothingIsSequential(start: int, ip: Ip)
    ensures Sequential(View(Limits(map[], map[]), [], 0, start, start))
  {
  }

  lemma {:induction false} SpacedBudget(fails: seq<int>, i: int, j: int)
    requires Spaced(fails) && Bounded(fails, 1) && 0 <= i < j < |fails| && fails[j] - fails[i] <= HOUR
    ensures j - i + 1 <= MAX_FAILURES
  {
    if FillsHour(fails, i + MAX_FAILURES - 1) {
    }
  }

  /** One request at a time: failures are at least 30 seconds apart, and even an hour with both its ends
      holds at most ten. */
  lemma {:induction false} SequentialBudget(start: int, events: seq<Event>, ip: Ip, i: int, j: int)
    requires Proper(start, events, |events|, ip, 1)
    requires var fails := Final(start, events, ip).fails; 0 <= i < j < |fails| && fails[j] - fails[i] <= HOUR
    ensures Spaced(Final(start, events, ip).fails)
    ensures j - i + 1 <= MAX_FAILURES
  {
    RunKeeps(start, events, |events|, ip, 1);
    RunIsSequential(start, events, |events|, ip);
    hide After, Proper, Drains, Suffix, Spaced, Bounded;
    SpacedBudget(Final(start, events, ip).fails, i, j);
  }

  // ----- a run for every number of requests in flight

  /** One more event on a run. */
  lemma {:induction false} PrefixRun(start: int, es: seq<Event>, fs: seq<Event>, n: nat, ip: Ip)
    requires n <= |es|
    ensures After(start, es + fs, n, ip) == After(start, es, n, ip)
  {
    hide Observe;
    if n > 0 {
      PrefixRun(start, es, fs, n - 1, ip);
      assert (es + fs)[n - 1] == es[n - 1];
    }
  }

  lemma {:induction false} Extend(start: int, es: seq<Event>, e: Event, ip: Ip, c: nat)
    requires Proper(start, es, |es|, ip, c) && Fits(Final(start, es, ip), ip, e, c)
    ensures Proper(start, es + [e], |es| + 1, ip, c)
    ensures Final(start, es + [e], ip) == Observe(Final(start, es, ip), ip, e)
  {
    hide Observe, Fits;
    forall i | 0 <= i < |es| + 1 ensures Fits(After(start, es + [e], i, ip), ip, (es + [e])[i], c) {
      PrefixRun(start, es, [e], i, ip);
    }
    PrefixRun(start, es, [e], |es|, ip);
  }

  const LAST_ROUND := (MAX_FAILURES - 1) * MIN_INTERVAL

  /** `n` spaced failures, nothing dropped, no block; k requests in flight; the clock not past `now`. */
  ghost predicate Filling(v: View, ip: Ip, n: nat, k: nat, now: int) {
    && n < MAX_FAILURES && v.inFlight == k && v.clock <= now
    && |v.fails| == n && (forall i :: 0 <= i < n ==> v.fails[i] == i * MIN_INTERVAL)
    && History(v.limits, ip) == v.fails && ip !in v.limits.blocked
  }

  lemma {:induction false} PruneNothing(h: seq<int>, cutoff: int)
    requires forall i :: 0 <= i < |h| ==> h[i] > cutoff
    ensures Prune(h, cutoff) == h
  {
    if h != [] {
      PruneNothing(h[..|h| - 1], cutoff);
    }
  }

  /** Thirty seconds after the last of fewer than ten failures, every attempt is allowed. */
  lemma {:induction false} AttemptWhileFilling(v: View, ip: Ip, n: nat, k: nat)
    requires Filling(v, ip, n, k, n * MIN_INTERVAL)
    ensures Filling(Observe(v, ip, Attempt(ip, n * MIN_INTERVAL)), ip, n, k + 1, n * MIN_INTERVAL)
  {
    PruneNothing(v.fails, n * MIN_INTERVAL - HOUR);
    hide Prune;
  }

  lemma {:induction false} FailureWhileFilling(v: View, ip: Ip, n: nat)
    requires Filling(v, ip, n, 1, n * MIN_INTERVAL) && n + 1 < MAX_FAILURES
    ensures Filling(Observe(v, ip, Failure(ip, n * MIN_INTERVAL, n * MIN_INTERVAL)), ip, n + 1, 0,
            (n + 1) * MIN_INTERVAL)
  {
    FailureEffect(v, ip, n * MIN_INTERVAL, n * MIN_INTERVAL);
    hide Observe;
  }

  /** Nine spaced failures. */
  lemma {:induction false} NineFailures(ip: Ip, c: nat, n: nat) returns (es: seq<Event>)
    requires c >= 1 && n < MAX_FAILURES
    ensures Proper(0, es, |es|, ip, c) && Filling(Final(0, es, ip), ip, n, 0, n * MIN_INTERVAL)
  {
    hide Observe;
    if n == 0 {
      es := [];
    } else {
      es := NineFailures(ip, c, n - 1);
      var at := (n - 1) * MIN_INTERVAL;
      var v := Final(0, es, ip);
      AttemptWhileFilling(v, ip, n - 1, 0);
      FailureWhileFilling(Observe(v, ip, Attempt(ip, at)), ip, n - 1);
      hide Final, Proper;
      Extend(0, es, Attempt(ip, at), ip, c);
      Extend(0, es + [Attempt(ip, at)], Failure(ip, at, at), ip, c);
      es := es + [Attempt(ip, at)] + [Failure(ip, at, at)];
    }
  }

  /** Then k requests that all ask at once, and are all allowed. */
  lemma {:induction false} AllAsk(ip: Ip, c: nat, k: nat) returns (es: seq<Event>)
    requires 1 <= c && k <= c
    ensures Proper(0, es, |es|, ip, c) && Filling(Final(0, es, ip), ip, MAX_FAILURES - 1, k, LAST_ROUND)
  {
    hide Observe, Final, Proper;
    if k == 0 {
      es := NineFailures(ip, c, MAX_FAILURES - 1);
    } else {
      es := AllAsk(ip, c, k - 1);
      AttemptWhileFilling(Final(0, es, ip), ip, MAX_FAILURES - 1, k - 1);
      Extend(0, es, Attempt(ip, LAST_ROUND), ip, c);
      es := es + [Attempt(ip, LAST_ROUND)];
    }
  }

  /** m of c requests that asked together have failed; all the failures lie within five minutes. */
  ghost predicate Failing(v: View, c: nat, m: nat) {
    && |v.fails| == MAX_FAILURES - 1 + m && v.inFlight == c - m && v.clock <= LAST_ROUND
    && (forall i :: 0 <= i < |v.fails| ==> 0 <= v.fails[i])
    && (forall i :: MAX_FAILURES - 1 <= i < |v.fails| ==> v.fails[i] == LAST_ROUND)
  }

  /** Then m of them fail. */
  lemma {:induction false} AllFail(ip: Ip, c: nat, m: nat) returns (es: seq<Event>)
    requires 1 <= c && m <= c
    ensures Proper(0, es, |es|, ip, c) && Failing(Final(0, es, ip), c, m)
  {
    hide Observe, Final, Proper;
    if m == 0 {
      es := AllAsk(ip, c, c);
    } else {
      es := AllFail(ip, c, m - 1);
      FailureEffect(Final(0, es, ip), ip, LAST_ROUND, LAST_ROUND);
      Extend(0, es, Failure(ip, LAST_ROUND, LAST_ROUND), ip, c);
      es := es + [Failure(ip, LAST_ROUND, LAST_ROUND)];
    }
  }

  // ----- which promise holds for how many requests in flight

  /** Every run with at most c requests in flight keeps to at most `most` failures in an hour. */
  ghost predicate HourHoldsAtMost(ip: Ip, c: nat, most: int) {
    forall start, events, i, j ::
      Proper(start, events, |events|, ip, c) && WithinHour(Final(start, events, ip).fails, i, j) ==> j - i + 1 <= most
  }

  /** The hourly budget is 9 + c, exactly: the limiter's ten failures an hour hold for one request at a time,
      and no number holds for any number of requests. */
  lemma {:induction false} HourlyBudgetIff(ip: Ip, c: nat, most: int)
    requires c >= 1
    ensures HourHoldsAtMost(ip, c, most) <==> most >= MAX_FAILURES - 1 + c
  {
    hide Proper, Final;
    var es := AllFail(ip, c, c);
    assert WithinHour(Final(0, es, ip).fails, 0, MAX_FAILURES - 2 + c);
    forall start, events, i, j | Proper(start, events, |events|, ip, c)
        && WithinHour(Final(start, events, ip).fails, i, j)
      ensures j - i + 1 <= MAX_FAILURES - 1 + c
    {
      FailureBudget(start, events, ip, c, i, j);
    }
  }

  /** Every run with at most c requests in flight keeps failures 30 seconds apart. */
  ghost predicate AlwaysSpaced(ip: Ip, c: nat) {
    forall start, events :: Proper(start, events, |events|, ip, c) ==> Spaced(Final(start, events, ip).fails)
  }

  /** Failures keep their spacing exactly when requests do not overlap. */
  lemma {:induction false} SpacedIff(ip: Ip, c: nat)
    ensures AlwaysSpaced(ip, c) <==> c <= 1
  {
    if c >= 2 {
      var es := AllFail(ip, c, 2);
      hide Proper, Final;
      var fails := Final(0, es, ip).fails;
      assert fails[MAX_FAILURES] - fails[MAX_FAILURES - 1] == 0;
      assert !Spaced(fails);
    } else {
      forall start, events | Proper(start, events, |events|, ip, c) ensures Spaced(Final(start, events, ip).fails) {
        RunIsSequential(start, events, |events|, ip);
      }
    }
  }

  // ----- when a block expires

  /** While a block stands, a request in flight finds a full history, so its failure renews the block. */
  ghost predicate Standing(v: View, ip: Ip) {
    ip in v.limits.blocked ==>
      && v.inFlight <= 1
      && (v.inFlight == 0 || |History(v.limits, ip)| >= MAX_FAILURES)
      && forall i :: 0 <= i < |v.fails| ==> v.fails[i] <= v.limits.blocked[ip] - HOUR
  }

  lemma {:induction false} FailureKeepsStanding(v: View, ip: Ip, recorded: int, after: int)
    requires Ordered(v) && 1 <= v.inFlight <= 2 && Standing(v, ip) && v.clock <= recorded <= after
    ensures Standing(Observe(v, ip, Failure(ip, recorded, after)), ip)
  {
    FailureEffect(v, ip, recorded, after);
    hide Observe;
  }

  lemma {:induction false} EventKeepsStanding(v: View, ip: Ip, e: Event)
    requires Invariant(v, ip, 2) && Standing(v, ip) && Fits(v, ip, e, 2)
    ensures Standing(Observe(v, ip, e), ip)
  {
    hide Fail, Drains, Bounded, Suffix, Prune;
    if e.ip != ip {
      OthersUntouched(v, ip, e);
    } else if e.Failure? {
      FailureKeepsStanding(v, ip, e.recorded, e.after);
    }
  }

  lemma {:induction false} RunStands(start: int, events: seq<Event>, n: nat, ip: Ip)
    requires n <= |events| && Proper(start, events, n, ip, 2)
    ensures Standing(After(start, events, n, ip), ip)
  {
    hide Observe, Fits, Invariant;
    if n > 0 {
      RunStands(start, events, n - 1, ip);
      RunKeeps(start, events, n - 1, ip, 2);
      hide Standing;
      EventKeepsStanding(After(start, events, n - 1, ip), ip, events[n - 1]);
    }
  }

  /** The block has expired, and the attempt that finds it so keeps nothing of the history. */
  ghost predicate StartsAfresh(l: Limits, ip: Ip, now: int) {
    var (l', verdict) := Allow(l, ip, now);
    History(l', ip) == [] && ip !in l'.blocked && verdict.ok
  }

  ghost predicate Expired(l: Limits, ip: Ip, now: int) {
    ip in l.blocked && l.blocked[ip] <= now
  }

  lemma {:induction false} ExpiryAfterStanding(v: View, ip: Ip, now: int)
    requires Suffix(v, ip) && Standing(v, ip) && Expired(v.limits, ip, now)
    ensures StartsAfresh(v.limits, ip, now)
  {
    PruneAllOld(History(v.limits, ip), now - HOUR);
  }

  /** In every run with at most c requests in flight, an expired block leaves an empty history. */
  ghost predicate ExpiryForgets(ip: Ip, c: nat) {
    forall start, events, now ::
      Proper(start, events, |events|, ip, c) && Expired(Final(start, events, ip).limits, ip, now)
      ==> StartsAfresh(Final(start, events, ip).limits, ip, now)
  }

  lemma {:induction false} FewerInFlight(start: int, events: seq<Event>, ip: Ip, c: nat, d: nat)
    requires c <= d && Proper(start, events, |events|, ip, c)
    ensures Proper(start, events, |events|, ip, d)
  {
    hide Observe;
  }

  /** Three requests in flight: one records the tenth failure, one succeeds and forgets the history but not
      the block, the third fails a moment later on an empty history. */
  lemma {:induction false} FailureOutlivesBlock(ip: Ip, c: nat) returns (es: seq<Event>)
    requires c >= 3
    ensures Proper(0, es, |es|, ip, c)
    ensures var l := Final(0, es, ip).limits;
      Expired(l, ip, LAST_ROUND + HOUR) && History(l, ip) == [LAST_ROUND + 1]
  {
    hide Observe, Final, Proper;
    es := AllAsk(ip, c, 3);
    var v0 := Final(0, es, ip);
    var tenth, success := Failure(ip, LAST_ROUND, LAST_ROUND), Success(ip, LAST_ROUND);
    var late := Failure(ip, LAST_ROUND + 1, LAST_ROUND + 1);
    FailureEffect(v0, ip, LAST_ROUND, LAST_ROUND);
    Extend(0, es, tenth, ip, c);
    es := es + [tenth];
    var v1 := Final(0, es, ip);
    var v2 := Observe(v1, ip, success);
    SuccessEffect(v1, ip, LAST_ROUND);
    Extend(0, es, success, ip, c);
    es := es + [success];
    FailureEffect(v2, ip, LAST_ROUND + 1, LAST_ROUND + 1);
    Extend(0, es, late, ip, c);
    es := es + [late];
  }

  lemma {:induction false} SuccessEffect(v: View, ip: Ip, at: int)
    ensures var v' := Observe(v, ip, Success(ip, at));
      && History(v'.limits, ip) == [] && v'.limits.blocked == v.limits.blocked
      && v'.fails == [] && v'.inFlight == v.inFlight - 1 && v'.clock == at
  {
  }

  lemma {:induction false} RecentIsKept(l: Limits, ip: Ip, t: int, now: int)
    requires Expired(l, ip, now) && History(l, ip) == [t] && t > now - HOUR
    ensures !StartsAfresh(l, ip, now)
  {
    PruneNothing([t], now - HOUR);
  }

  /** An expired block leaves an empty history exactly when at most two requests are in flight. */
  lemma {:induction false} ExpiryIff(ip: Ip, c: nat)
    ensures ExpiryForgets(ip, c) <==> c <= 2
  {
    if c >= 3 {
      var es := FailureOutlivesBlock(ip, c);
      hide Proper, Final, StartsAfresh;
      RecentIsKept(Final(0, es, ip).limits, ip, LAST_ROUND + 1, LAST_ROUND + HOUR);
    } else {
      forall start, events, now | Proper(start, events, |events|, ip, c)
          && Expired(Final(start, events, ip).limits, ip, now)
        ensures StartsAfresh(Final(start, events, ip).limits, ip, now)
      {
        hide Proper, After, StartsAfresh, Standing, Expired;
        FewerInFlight(start, events, ip, c, 2);
        RunKeeps(start, events, |events|, ip, 2);
        RunStands(start, events, |events|, ip);
        ExpiryAfterStanding(Final(start, events, ip), ip, now);
      }
    }
  }
}
