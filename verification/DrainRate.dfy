/**
 How fast a backlog drains: rounds of a fault-free poll, the pacing that follows it and whatever
 the index gains during the sleep (src/soctalk_adapter/main.py: `_ingest_loop`, `_next_sleep`).
 Polls and calls take no time of their own; every document maps to an event.
 */
module DrainRate {
  import opened Wrappers
  import opened Keyset
  import opened ControlPlanes
  import opened TokenBuckets
  import opened AdapterSpec
  import opened IngestProtocol
  import opened IngestProgress
  import opened CheckpointSync

  function Ahead(w: World): nat {
    Backlog(w.index, w.a.cursor)
  }

  function Sent(cfg: Config, w: World, now: real): nat
    requires Ready(w.a, now)
  {
    Capacity(w.a, PageEvents(cfg, w), now)
  }

  function Deferred(cfg: Config, w: World, now: real): nat
    requires Ready(w.a, now)
  {
    |PageEvents(cfg, w)| - Sent(cfg, w, now)
  }

  function Polled(cfg: Config, w: World, now: real): World
    requires Ready(w.a, now)
  {
    Next(cfg, w, Poll(now, FAULT_FREE))
  }

  function Slept(cfg: Config, w: World, now: real): World
    requires Ready(w.a, now)
  {
    Next(cfg, Polled(cfg, w, now), Pace(Deferred(cfg, w, now), now))
  }

  /** One round: the next poll comes after the sleep the pacing asks for. */
  ghost predicate Round(cfg: Config, w: World, now: real, w': World, next: real) {
    && Enabled(cfg, w, Poll(now, FAULT_FREE))
    && Enabled(cfg, Polled(cfg, w, now), Pace(Deferred(cfg, w, now), now))
    && Enabled(cfg, Slept(cfg, w, now), Grow(w'.index))
    && w' == Next(cfg, Slept(cfg, w, now), Grow(w'.index))
    && next == now + NextSleep(Polled(cfg, w, now).a.bucket, Deferred(cfg, w, now), cfg.interval, now)
    && Ready(w'.a, next)
  }

  ghost predicate Rounds(cfg: Config, worlds: seq<World>, times: seq<real>) {
    && |worlds| == |times| > 0
    && (forall i :: 0 <= i < |worlds| ==> Ready(worlds[i].a, times[i]))
    && forall i :: 0 <= i < |worlds| - 1 ==> Round(cfg, worlds[i], times[i], worlds[i + 1], times[i + 1])
  }

  /** A round is three steps of the protocol. */
  lemma {:induction false} RoundIsRun(cfg: Config, w: World, now: real, w': World, next: real)
    requires Round(cfg, w, now, w', next)
    ensures IsRun(cfg, [w, Polled(cfg, w, now), Slept(cfg, w, now), w'],
                  [Poll(now, FAULT_FREE), Pace(Deferred(cfg, w, now), now), Grow(w'.index)])
  {
    hide Next, Enabled;
  }

  /** The poll of this round leaves nothing ahead. */
  ghost predicate Empties(cfg: Config, w: World, now: real)
    requires Ready(w.a, now)
  {
    Ahead(w) == Sent(cfg, w, now)
  }

  // ----- the books of one round

  lemma {:induction false} GrowthAddsAhead(ix: seq<Doc>, more: seq<Doc>, c: Cursor)
    requires Sorted(ix) && Sorted(more) && forall d :: d in ix ==> d in more
    requires forall d :: d in more && d !in ix ==> Past(d, c)
    requires AllEvents(more)
    ensures Backlog(more, c) == Backlog(ix, c) + |more| - |ix| && AllEvents(ix)
  {
    GrowthKeepsRank(ix, more, c);
    assert AllEvents(ix) by {
      forall i | 0 <= i < |ix| ensures ix[i].mappable {
        assert ix[i] in more;
      }
    }
    AllMappable(ix[Rank(ix, c)..]);
    AllMappable(more[Rank(ix, c)..]);
    hide Rank;
  }

  lemma {:induction false} PollSends(cfg: Config, w: World, now: real)
    requires !cfg.shed && Sorted(w.index) && Ready(w.a, now)
    ensures Ahead(Polled(cfg, w, now)) == Ahead(w) - Sent(cfg, w, now)
    ensures Polled(cfg, w, now).index == w.index
  {
    PollProgress(cfg, w, now);
    FaultFreePoll(cfg, w, now);
    hide PollCycle, Backlog, Page, Events, Capacity;
  }

  lemma {:induction false} RoundCounts(cfg: Config, w: World, now: real, w': World, next: real)
    requires !cfg.shed && Round(cfg, w, now, w', next) && InScope(cfg, w.index) && AllEvents(w'.index)
    ensures Ahead(w') == Ahead(w) - Sent(cfg, w, now) + |w'.index| - |w.index|
    ensures InScope(cfg, w'.index) && AllEvents(w.index)
  {
    PollSends(cfg, w, now);
    var q := Slept(cfg, w, now);
    assert InPlay(q, q.a.cursor) && q.index == w.index && q.a.cursor == Polled(cfg, w, now).a.cursor;
    hide Polled, Backlog, Capacity, Past;
    GrowthAddsAhead(w.index, w'.index, q.a.cursor);
  }

  // ----- the tokens of one round

  /** A rate the loop can sustain: the limiter grants it, and if a page fits into the bucket, a page per
      interval is not less. */
  ghost predicate Sustained(cfg: Config, b: Bucket, r: real) {
    0.0 <= r <= b.rate && b.rate > 0.0 && (cfg.batch <= b.burst ==> r * cfg.interval <= cfg.batch as real)
  }

  lemma {:induction false} RoundBucket(cfg: Config, w: World, now: real, w': World, next: real)
    requires !cfg.shed && Round(cfg, w, now, w', next) && w.a.bucket.rate > 0.0 && PageEvents(cfg, w) != []
    ensures var t := Take(w.a.bucket, |PageEvents(cfg, w)|, now);
      && t.last == now && t.rate == w.a.bucket.rate && t.burst == w.a.bucket.burst && Valid(t)
      && w'.a.bucket == t && Polled(cfg, w, now).a.bucket == t
      && t.tokens == Refill(w.a.bucket, now).tokens - Sent(cfg, w, now) as real
  {
    var n := |PageEvents(cfg, w)|;
    PollBucket(cfg, w, now, FAULT_FREE);
    TakeStaysWithinBurst(w.a.bucket, n, now);
    TakeTouches(w.a.bucket, n, now);
    assert Polled(cfg, w, now).a.bucket == Take(w.a.bucket, n, now);
    PeekAgain(Take(w.a.bucket, n, now));
    hide PageEvents, Polled;
  }

  lemma {:induction false} PeekAgain(b: Bucket)
    requires Valid(b)
    ensures Peek(b, b.last) == b
  {
  }

  /** While something was deferred, the sleep never overfills the bucket. */
  lemma {:induction false} SleepFits(t: Bucket, deferred: nat, interval: real)
    requires Valid(t) && t.rate > 0.0 && deferred > 0
    ensures var s := NextSleep(t, deferred, interval, t.last);
      s >= 0.0 && t.tokens + s * t.rate <= t.burst as real
  {
    PeekAgain(t);
    var wanted := if deferred <= t.burst then deferred else t.burst;
    var s := NextSleep(t, deferred, interval, t.last);
    if t.tokens < wanted as real {
      MulDiv(wanted as real - t.tokens, t.rate);
      assert s <= SecondsUntil(t, wanted, t.last) || s == 0.0;
      ScaleAtMost(s, (wanted as real - t.tokens) / t.rate, t.rate);
    }
  }

  lemma {:induction false} ScaleAtMost(x: real, y: real, r: real)
    requires x <= y && r >= 0.0
    ensures x * r <= y * r
  {
    NonNegative(y - x, r);
    assert (y - x) * r == y * r - x * r;
  }

  lemma {:induction false} SleepTokens(t: Bucket, s: real, r: real)
    requires Valid(t) && s >= 0.0 && 0.0 <= r <= t.rate && t.tokens + r * s <= t.burst as real
    ensures Refill(t, t.last + s).tokens >= t.tokens + r * s
  {
    ScaleAtMost(r, t.rate, s);
    Commutes(t.rate, s);
    RefillAfter(t, s);
    hide Refill;
  }

  /** What the bucket holds after the sleep. */
  lemma {:induction false} SleepKeeps(t: Bucket, deferred: nat, interval: real, r: real)
    requires Valid(t) && t.rate > 0.0 && 0.0 <= r <= t.rate && interval >= 0.0
    requires deferred == 0 ==> t.tokens + r * interval <= t.burst as real
    ensures var s := NextSleep(t, deferred, interval, t.last);
      s >= 0.0 && Refill(t, t.last + s).tokens >= t.tokens + r * s
  {
    hide Refill, SecondsUntil;
    var s := NextSleep(t, deferred, interval, t.last);
    if deferred > 0 {
      SleepFits(t, deferred, interval);
      ScaleAtMost(r, t.rate, s);
      Commutes(t.rate, s);
    } else {
      SleepsWhole(t, interval, t.last);
      SameProduct(interval, s, r);
      Commutes(interval, r);
      Commutes(s, r);
    }
    SleepTokens(t, s, r);
  }

  /** A poll that defers nothing and still leaves something has sent a full page, which the bucket held. */
  lemma {:induction false} FullPage(cfg: Config, w: World, now: real)
    requires Ready(w.a, now) && w.a.bucket.rate > 0.0 && AllEvents(w.index)
    ensures Sent(cfg, w, now) as real <= Refill(w.a.bucket, now).tokens <= w.a.bucket.burst as real
    ensures !Empties(cfg, w, now) && Deferred(cfg, w, now) == 0 ==> Sent(cfg, w, now) == cfg.batch
    ensures !Empties(cfg, w, now) && cfg.batch > 0 ==> PageEvents(cfg, w) != []
  {
    PageOfEvents(w.index, w.a.cursor, cfg.batch);
    RefillStaysWithinBurst(w.a.bucket, now);
    TakeStaysWithinBurst(w.a.bucket, |PageEvents(cfg, w)|, now);
    hide Page, Events, Refill, Backlog;
  }

  lemma {:induction false} RoundSleeps(cfg: Config, w: World, now: real, w': World, next: real)
    requires Round(cfg, w, now, w', next)
    ensures next == now + NextSleep(Polled(cfg, w, now).a.bucket, Deferred(cfg, w, now), cfg.interval, now)
    ensures Valid(w.a.bucket) && w.a.bucket.last <= now
  {
  }

  /** A full page, at the rate the loop sustains, is what the bucket gains meanwhile at most. */
  lemma {:induction false} FullPageLeavesRoom(cfg: Config, t: Bucket, before: real, r: real)
    requires Sustained(cfg, t, r) && cfg.batch as real <= before <= t.burst as real
             && t.tokens == before - cfg.batch as real
    ensures t.tokens + r * cfg.interval <= t.burst as real
  {
    var gain := r * cfg.interval;
    assert gain <= cfg.batch as real;
  }

  lemma {:induction false} SustainedRate(cfg: Config, b: Bucket, r: real)
    requires Sustained(cfg, b, r)
    ensures b.rate > 0.0 && 0.0 <= r <= b.rate
  {
  }

  lemma {:induction false} SameSustained(cfg: Config, b: Bucket, t: Bucket, r: real)
    requires Sustained(cfg, b, r) && t.rate == b.rate && t.burst == b.burst
    ensures Sustained(cfg, t, r)
  {
  }

  /** Unless the poll empties the backlog, the next one finds what this one left, and at least r tokens for
      each second of the sleep. */
  lemma {:induction false} TokensKept(cfg: Config, w: World, now: real, w': World, next: real, r: real)
      returns (sleep: real)
    requires !cfg.shed && Round(cfg, w, now, w', next) && AllEvents(w.index) && cfg.interval >= 0.0
    requires Sustained(cfg, w.a.bucket, r) && !Empties(cfg, w, now) && cfg.batch > 0
    ensures sleep == next - now >= 0.0
    ensures Refill(w'.a.bucket, next).tokens >= Refill(w.a.bucket, now).tokens - Sent(cfg, w, now) as real + r * sleep
    ensures w'.a.bucket.rate == w.a.bucket.rate && w'.a.bucket.burst == w.a.bucket.burst
  {
    hide Round, PageEvents, Take, Polled, Refill, Sent, Deferred, Empties, NextSleep, Sustained, AllEvents;
    RoundSleeps(cfg, w, now, w', next);
    SustainedRate(cfg, w.a.bucket, r);
    FullPage(cfg, w, now);
    RoundBucket(cfg, w, now, w', next);
    var t, d := w'.a.bucket, Deferred(cfg, w, now);
    SameSustained(cfg, w.a.bucket, t, r);
    sleep := NextSleep(t, d, cfg.interval, now);
    if d == 0 {
      FullPageLeavesRoom(cfg, t, Refill(w.a.bucket, now).tokens, r);
    }
    SleepKeeps(t, d, cfg.interval, r);
  }

  // ----- over any number of rounds

  lemma {:induction false} Stretches(r: real, x: real, y: real, z: real)
    requires x + y == z
    ensures r * x + r * y == r * z
  {
  }

  /** No poll before round n empties the backlog. */
  ghost predicate NeverEmpty(cfg: Config, worlds: seq<World>, times: seq<real>, n: nat)
    requires Rounds(cfg, worlds, times) && n < |worlds|
  {
    forall i :: 0 <= i < n ==> !Empties(cfg, worlds[i], times[i])
  }

  /** The loop runs in defer mode on documents that all map to events. */
  ghost predicate Loop(cfg: Config, worlds: seq<World>, times: seq<real>) {
    && !cfg.shed && cfg.batch > 0 && cfg.interval >= 0.0
    && Rounds(cfg, worlds, times) && InScope(cfg, worlds[0].index)
    && forall i :: 0 <= i < |worlds| ==> AllEvents(worlds[i].index)
  }

  /** What is ahead, and what the next poll finds in the bucket, against the time since the first poll. */
  ghost predicate Draining(w0: World, t0: real, w: World, t: real, r: real) {
    Ahead(w) as real
    <= (Ahead(w0) + |w.index| - |w0.index|) as real - r * (t - t0)
       + Refill(w.a.bucket, t).tokens - Refill(w0.a.bucket, t0).tokens
  }

  lemma {:induction false} DrainingAdds(r: real, a0: int, a: int, a': int, grown: int, more: int, sent: int,
      tok0: real, tok: real, tok': real, past: real, sleep: real, all: real)
    requires a as real <= (a0 + grown) as real - r * past + tok - tok0
    requires a' == a - sent + more && tok' >= tok - sent as real + r * sleep && past + sleep == all
    ensures a' as real <= (a0 + grown + more) as real - r * all + tok' - tok0
  {
    Stretches(r, past, sleep, all);
  }

  lemma {:induction false} DrainingStep(w0: World, t0: real, w: World, now: real, w': World, next: real, r: real,
      sent: nat, sleep: real)
    requires Draining(w0, t0, w, now, r) && sleep == next - now
    requires Ahead(w') == Ahead(w) - sent + |w'.index| - |w.index|
    requires Refill(w'.a.bucket, next).tokens >= Refill(w.a.bucket, now).tokens - sent as real + r * sleep
    ensures Draining(w0, t0, w', next, r)
  {
    hide Ahead, Refill;
    DrainingAdds(r, Ahead(w0), Ahead(w), Ahead(w'), |w.index| - |w0.index|, |w'.index| - |w.index|, sent,
                 Refill(w0.a.bucket, t0).tokens, Refill(w.a.bucket, now).tokens, Refill(w'.a.bucket, next).tokens,
                 now - t0, sleep, next - t0);
  }

  lemma {:induction false} RoundDrains(cfg: Config, w0: World, t0: real, w: World, now: real, w': World, next: real,
      r: real)
    requires !cfg.shed && cfg.batch > 0 && cfg.interval >= 0.0
    requires Round(cfg, w, now, w', next) && InScope(cfg, w.index) && AllEvents(w.index) && AllEvents(w'.index)
    requires Sustained(cfg, w.a.bucket, r) && !Empties(cfg, w, now) && Draining(w0, t0, w, now, r)
    ensures Draining(w0, t0, w', next, r)
    ensures InScope(cfg, w'.index) && Sustained(cfg, w'.a.bucket, r) && w'.a.bucket.burst == w.a.bucket.burst
  {
    hide Round, Sent, Empties, Refill, Sustained, AllEvents, InScope, Ahead, Draining;
    RoundSleeps(cfg, w, now, w', next);
    RoundCounts(cfg, w, now, w', next);
    var sleep := TokensKept(cfg, w, now, w', next, r);
    SameSustained(cfg, w.a.bucket, w'.a.bucket, r);
    DrainingStep(w0, t0, w, now, w', next, r, Sent(cfg, w, now), sleep);
  }

  lemma {:induction false} RoundsDrain(cfg: Config, worlds: seq<World>, times: seq<real>, n: nat, r: real)
    requires Loop(cfg, worlds, times) && n < |worlds| && Sustained(cfg, worlds[0].a.bucket, r)
    requires NeverEmpty(cfg, worlds, times, n)
    ensures Draining(worlds[0], times[0], worlds[n], times[n], r)
    ensures InScope(cfg, worlds[n].index) && Sustained(cfg, worlds[n].a.bucket, r)
    ensures worlds[n].a.bucket.burst == worlds[0].a.bucket.burst
  {
    hide Round, Sent, Empties, Refill, Sustained, AllEvents, InScope, Ahead;
    if n > 0 {
      RoundsDrain(cfg, worlds, times, n - 1, r);
      assert Round(cfg, worlds[n - 1], times[n - 1], worlds[n - 1 + 1], times[n - 1 + 1]);
      hide Draining;
      RoundDrains(cfg, worlds[0], times[0], worlds[n - 1], times[n - 1], worlds[n], times[n], r);
    }
  }

  /** A backlog drains at the configured rate: as long as no poll has emptied it, what is ahead after any
      number of rounds is at most what was ahead plus what arrived, less r for each second, plus one burst.
      This holds for every rate r that the limiter grants and, where a page fits into the bucket, a page per
      interval allows. */
  lemma {:induction false} DrainsAtRate(cfg: Config, worlds: seq<World>, times: seq<real>, n: nat, r: real)
    requires Loop(cfg, worlds, times) && n < |worlds| && Sustained(cfg, worlds[0].a.bucket, r)
    requires NeverEmpty(cfg, worlds, times, n)
    ensures Ahead(worlds[n]) as real
         <= (Ahead(worlds[0]) + |worlds[n].index| - |worlds[0].index|) as real - r * (times[n] - times[0])
            + worlds[0].a.bucket.burst as real
  {
    RoundsDrain(cfg, worlds, times, n, r);
    assert Ready(worlds[0].a, times[0]) && Ready(worlds[n].a, times[n]);
    RefillStaysWithinBurst(worlds[0].a.bucket, times[0]);
    RefillStaysWithinBurst(worlds[n].a.bucket, times[n]);
    hide Refill, Sustained, Loop, InScope, Ahead, NeverEmpty;
  }

  lemma {:induction false} RoundKeepsSafe(cfg: Config, w: World, now: real, w': World, next: real)
    requires !cfg.shed && Safe(cfg, w) && Round(cfg, w, now, w', next)
    ensures Safe(cfg, w')
  {
    hide Safe, Next;
    StepKeepsSafe(cfg, w, Poll(now, FAULT_FREE));
    StepKeepsSafe(cfg, Polled(cfg, w, now), Pace(Deferred(cfg, w, now), now));
    StepKeepsSafe(cfg, Slept(cfg, w, now), Grow(w'.index));
  }

  lemma {:induction false} RoundsKeepSafe(cfg: Config, worlds: seq<World>, times: seq<real>, n: nat)
    requires !cfg.shed && Rounds(cfg, worlds, times) && n < |worlds| && Safe(cfg, worlds[0])
    ensures Safe(cfg, worlds[n])
  {
    hide Round, Safe;
    if n > 0 {
      RoundsKeepSafe(cfg, worlds, times, n - 1);
      assert Round(cfg, worlds[n - 1], times[n - 1], worlds[n - 1 + 1], times[n - 1 + 1]);
      RoundKeepsSafe(cfg, worlds[n - 1], times[n - 1], worlds[n], times[n]);
    }
  }

  /** So once r for each second exceeds what was ahead, what arrived and one burst together, some poll has left
      nothing ahead, and with it every event indexed by then has been accepted. */
  lemma {:induction false} BacklogIsDelivered(cfg: Config, worlds: seq<World>, times: seq<real>, n: nat, r: real)
      returns (i: nat)
    requires Loop(cfg, worlds, times) && n < |worlds| && Sustained(cfg, worlds[0].a.bucket, r) && Safe(cfg, worlds[0])
    requires r * (times[n] - times[0])
           > (Ahead(worlds[0]) + |worlds[n].index| - |worlds[0].index|) as real + worlds[0].a.bucket.burst as real
    ensures i < n && forall d :: d in worlds[i].index ==> d.id in Polled(cfg, worlds[i], times[i]).plane.log
  {
    if NeverEmpty(cfg, worlds, times, n) {
      DrainsAtRate(cfg, worlds, times, n, r);
    }
    i :| 0 <= i < n && Empties(cfg, worlds[i], times[i]);
    RoundsKeepSafe(cfg, worlds, times, i);
    assert Round(cfg, worlds[i], times[i], worlds[i + 1], times[i + 1]) && AllEvents(worlds[i].index);
    hide Loop, NeverEmpty, Safe;
    EmptyMeansDelivered(cfg, worlds[i], times[i]);
  }

  lemma {:induction false} EmptyMeansDelivered(cfg: Config, w: World, now: real)
    requires !cfg.shed && Safe(cfg, w) && Enabled(cfg, w, Poll(now, FAULT_FREE)) && AllEvents(w.index)
             && Empties(cfg, w, now)
    ensures forall d :: d in w.index ==> d.id in Polled(cfg, w, now).plane.log
  {
    PollKeepsSafe(cfg, w, now, FAULT_FREE);
    PollSends(cfg, w, now);
    var p := Polled(cfg, w, now);
    assert InPlay(p, p.a.cursor);
    hide Polled, Capacity, Past, Backlog, PageEvents;
    forall d | d in w.index ensures d.id in p.plane.log {
      NoBacklogMeansAllPassed(w.index, p.a.cursor, d);
    }
  }

  // ----- when a page fits into the bucket and the rate is higher

  /** Then a poll that finds a page of tokens and more than a page ahead sends just that page, and the loop
      sleeps the whole interval. */
  lemma {:induction false} PageByPage(cfg: Config, w: World, now: real, w': World, next: real)
    requires !cfg.shed && Round(cfg, w, now, w', next) && AllEvents(w.index) && cfg.interval >= 0.0 && cfg.batch > 0
    requires cfg.batch <= w.a.bucket.burst && w.a.bucket.rate * cfg.interval >= cfg.batch as real
    requires Ahead(w) > cfg.batch && Refill(w.a.bucket, now).tokens >= cfg.batch as real
    ensures Sent(cfg, w, now) == cfg.batch && next == now + cfg.interval
    ensures Refill(w'.a.bucket, next).tokens >= cfg.batch as real
    ensures w'.a.bucket.rate == w.a.bucket.rate && w'.a.bucket.burst == w.a.bucket.burst
  {
    hide Round, PageEvents, Polled, Ahead, Refill, AllEvents, NextSleep;
    RoundSleeps(cfg, w, now, w', next);
    PositiveRate(w.a.bucket, cfg.interval, cfg.batch);
    WholePageIsSent(cfg, w, now);
    RoundBucket(cfg, w, now, w', next);
    SleepsWhole(Polled(cfg, w, now).a.bucket, cfg.interval, now);
    SameProduct(w.a.bucket.rate, w'.a.bucket.rate, cfg.interval);
    IntervalRefills(w'.a.bucket, cfg.interval, cfg.batch);
  }

  lemma {:induction false} PositiveRate(b: Bucket, interval: real, batch: nat)
    requires Valid(b) && b.rate * interval >= batch as real && batch > 0
    ensures b.rate > 0.0
  {
    if b.rate == 0.0 {
      SameProduct(b.rate, 0.0, interval);
    }
  }

  lemma {:induction false} SameProduct(x: real, y: real, z: real)
    requires x == y
    ensures x * z == y * z
  {
  }

  lemma {:induction false} SleepsWhole(t: Bucket, interval: real, now: real)
    ensures NextSleep(t, 0, interval, now) == interval
  {
  }

  lemma {:induction false} WholePageIsSent(cfg: Config, w: World, now: real)
    requires Ready(w.a, now) && w.a.bucket.rate > 0.0 && AllEvents(w.index) && cfg.batch > 0
    requires Ahead(w) > cfg.batch && Refill(w.a.bucket, now).tokens >= cfg.batch as real
    ensures Sent(cfg, w, now) == cfg.batch && Deferred(cfg, w, now) == 0 && PageEvents(cfg, w) != []
  {
    PageOfEvents(w.index, w.a.cursor, cfg.batch);
    hide Refill, Page, Events, Backlog;
    WholePage(w.a.bucket, |PageEvents(cfg, w)|, now);
  }

  lemma {:induction false} WholePage(b: Bucket, n: nat, now: real)
    requires b.rate > 0.0 && Refill(b, now).tokens >= n as real
    ensures Allowed(b, n, now) == n
  {
    hide Refill;
  }

  lemma {:induction false} IntervalRefills(t: Bucket, interval: real, batch: nat)
    requires Valid(t) && batch <= t.burst && t.rate * interval >= batch as real
    ensures Refill(t, t.last + interval).tokens >= batch as real
  {
    RefillAfter(t, interval);
    Commutes(t.rate, interval);
    hide Refill;
  }

  lemma {:induction false} Commutes(x: real, y: real)
    ensures x * y == y * x
  {
  }

  lemma {:induction false} OneMore(n: nat, x: real, m: nat)
    requires n > 0
    ensures n as real * x == (n - 1) as real * x + x && n * m == (n - 1) * m + m
  {
    assert n as real == (n - 1) as real + 1.0;
  }

  lemma {:induction false} PageRound(cfg: Config, w: World, now: real, w': World, next: real)
    requires !cfg.shed && cfg.batch > 0 && cfg.interval >= 0.0
    requires Round(cfg, w, now, w', next) && InScope(cfg, w.index) && AllEvents(w.index) && AllEvents(w'.index)
    requires cfg.batch <= w.a.bucket.burst && w.a.bucket.rate * cfg.interval >= cfg.batch as real
    requires Ahead(w) > cfg.batch && Refill(w.a.bucket, now).tokens >= cfg.batch as real
    ensures Ahead(w') == Ahead(w) + |w'.index| - |w.index| - cfg.batch && next == now + cfg.interval
    ensures Refill(w'.a.bucket, next).tokens >= cfg.batch as real && InScope(cfg, w'.index)
    ensures w'.a.bucket.rate == w.a.bucket.rate && w'.a.bucket.burst == w.a.bucket.burst
  {
    hide Round, Sent, Refill, AllEvents, InScope, Ahead;
    RoundSleeps(cfg, w, now, w', next);
    PageByPage(cfg, w, now, w', next);
    RoundCounts(cfg, w, now, w', next);
  }

  /** So however high the configured rate, such a backlog drains by one page per interval, no faster. */
  lemma {:induction false} DrainsByThePage(cfg: Config, worlds: seq<World>, times: seq<real>, n: nat)
    requires Loop(cfg, worlds, times) && n < |worlds|
    requires cfg.batch <= worlds[0].a.bucket.burst && worlds[0].a.bucket.rate * cfg.interval >= cfg.batch as real
    requires Refill(worlds[0].a.bucket, times[0]).tokens >= cfg.batch as real
    requires forall i :: 0 <= i < n ==> Ahead(worlds[i]) > cfg.batch
    ensures Ahead(worlds[n]) == Ahead(worlds[0]) + |worlds[n].index| - |worlds[0].index| - n * cfg.batch
    ensures times[n] == times[0] + n as real * cfg.interval
    ensures Refill(worlds[n].a.bucket, times[n]).tokens >= cfg.batch as real && InScope(cfg, worlds[n].index)
    ensures worlds[n].a.bucket.rate == worlds[0].a.bucket.rate && worlds[n].a.bucket.burst == worlds[0].a.bucket.burst
  {
    hide Round, Sent, Refill, AllEvents, InScope, Ahead;
    if n > 0 {
      DrainsByThePage(cfg, worlds, times, n - 1);
      assert Round(cfg, worlds[n - 1], times[n - 1], worlds[n - 1 + 1], times[n - 1 + 1]);
      SameProduct(worlds[0].a.bucket.rate, worlds[n - 1].a.bucket.rate, cfg.interval);
      PageRound(cfg, worlds[n - 1], times[n - 1], worlds[n], times[n]);
      OneMore(n, cfg.interval, cfg.batch);
    }
  }

  // ----- the configured rate is kept exactly where a page per interval allows it

  /** The bucket after a poll, and after the pacing that follows it. */
  lemma {:induction false} PolledIsReady(cfg: Config, w: World, now: real)
    requires Ready(w.a, now) && w.a.phase == Polling
    ensures Ready(Polled(cfg, w, now).a, now) && Polled(cfg, w, now).a.phase == Polling
    ensures Polled(cfg, w, now).index == w.index
  {
    PollBucket(cfg, w, now, FAULT_FREE);
    PollSaves(cfg, w, now, FAULT_FREE);
    TakeStaysWithinBurst(w.a.bucket, |PageEvents(cfg, w)|, now);
    if w.a.bucket.rate > 0.0 {
      TakeTouches(w.a.bucket, |PageEvents(cfg, w)|, now);
    }
    hide PageEvents, PollCycle, Saved, Posted, Refill, Allowed;
  }

  lemma {:induction false} PacedIsReady(b: Bucket, deferred: int, interval: real, now: real)
    requires Valid(b) && b.last <= now && interval >= 0.0
    ensures NextSleep(b, deferred, interval, now) >= 0.0
    ensures Valid(Paced(b, deferred, now)) && Paced(b, deferred, now).last <= now
  {
    RefillStaysWithinBurst(b, now);
  }

  /** A polling adapter can always go through another round. */
  lemma {:induction false} RoundExists(cfg: Config, w: World, now: real) returns (w': World, next: real)
    requires Ready(w.a, now) && w.a.phase == Polling && InScope(cfg, w.index) && cfg.interval >= 0.0
    ensures Round(cfg, w, now, w', next) && w'.index == w.index && w'.a.phase == Polling
  {
    PolledIsReady(cfg, w, now);
    var d := Deferred(cfg, w, now);
    var p := Polled(cfg, w, now);
    assert p == Next(cfg, w, Poll(now, FAULT_FREE));
    hide Polled, Deferred, PageEvents, Capacity, PollCycle;
    PacedIsReady(p.a.bucket, d, cfg.interval, now);
    hide Paced, NextSleep;
    next := now + NextSleep(p.a.bucket, d, cfg.interval, now);
    w' := Next(cfg, Slept(cfg, w, now), Grow(w.index));
  }

  lemma {:induction false} RoundsExist(cfg: Config, w: World, now: real, n: nat)
      returns (worlds: seq<World>, times: seq<real>)
    requires Ready(w.a, now) && w.a.phase == Polling && InScope(cfg, w.index) && cfg.interval >= 0.0
    ensures Rounds(cfg, worlds, times) && |worlds| == n + 1 && worlds[0] == w && times[0] == now
    ensures forall i :: 0 <= i <= n ==> worlds[i].index == w.index
    ensures worlds[n].a.phase == Polling
  {
    hide Round, InScope;
    if n == 0 {
      worlds, times := [w], [now];
    } else {
      var before, past := RoundsExist(cfg, w, now, n - 1);
      var w', next := RoundExists(cfg, before[n - 1], past[n - 1]);
      RoundIsReady(cfg, before[n - 1], past[n - 1], w', next);
      worlds, times := before + [w'], past + [next];
      forall i | 0 <= i < n ensures Round(cfg, worlds[i], times[i], worlds[i + 1], times[i + 1]) {
        if i < n - 1 {
          assert Round(cfg, before[i], past[i], before[i + 1], past[i + 1]);
        }
      }
    }
  }

  lemma {:induction false} RoundIsReady(cfg: Config, w: World, now: real, w': World, next: real)
    requires Round(cfg, w, now, w', next)
    ensures Ready(w'.a, next)
  {
  }

  /** An index of N events, and an adapter that has just started polling it with a full bucket. */
  function Queue(cfg: Config, size: nat): seq<Doc> {
    seq(size, i => Doc(cfg.initialTs, i, true))
  }

  function Filled(cfg: Config, size: nat, rate: real, burst: nat): World {
    World(Queue(cfg, size), Plane([], None),
          Boot(cfg, 0.0).(phase := Polling, bucket := Bucket(rate, burst, burst as real, 0.0)), {}, {})
  }

  lemma {:induction false} QueueIsAhead(cfg: Config, size: nat, rate: real, burst: nat)
    ensures var w := Filled(cfg, size, rate, burst);
      InScope(cfg, w.index) && AllEvents(w.index) && Ahead(w) == size && |w.index| == size
  {
    var ix := Queue(cfg, size);
    assert Rank(ix, StartCursor(cfg)) == 0 && ix[0..] == ix;
    AllMappable(ix);
  }

  /** What the promise "a backlog drains at the configured rate" says of n rounds that never empty it. */
  ghost predicate KeepsRate(worlds: seq<World>, times: seq<real>, n: nat) {
    n < |worlds| && n < |times|
    && Ahead(worlds[n]) as real
       <= (Ahead(worlds[0]) + |worlds[n].index| - |worlds[0].index|) as real
          - worlds[0].a.bucket.rate * (times[n] - times[0]) + worlds[0].a.bucket.burst as real
  }

  lemma {:induction false} PagesAhead(cfg: Config, worlds: seq<World>, times: seq<real>, n: nat, k: nat)
    requires Loop(cfg, worlds, times) && k <= n < |worlds|
    requires cfg.batch <= worlds[0].a.bucket.burst && worlds[0].a.bucket.rate * cfg.interval >= cfg.batch as real
    requires Refill(worlds[0].a.bucket, times[0]).tokens >= cfg.batch as real
    requires Ahead(worlds[0]) == n * cfg.batch + 1 && forall i :: 0 <= i <= n ==> worlds[i].index == worlds[0].index
    ensures forall i :: 0 <= i < k ==> Ahead(worlds[i]) > cfg.batch
  {
    hide Loop, Ahead, Refill;
    if k > 0 {
      PagesAhead(cfg, worlds, times, n, k - 1);
      DrainsByThePage(cfg, worlds, times, k - 1);
      PagesLeft(n, k - 1, cfg.batch);
    }
  }

  lemma {:induction false} PagesLeft(n: nat, k: nat, batch: nat)
    requires k < n
    ensures n * batch + 1 - k * batch > batch
  {
    SumTimes(n - k - 1, k + 1, batch);
    SumTimes(k, 1, batch);
    assert (n - k - 1) * batch >= 0;
  }

  lemma {:induction false} SumTimes(x: nat, y: nat, m: nat)
    ensures (x + y) * m == x * m + y * m
  {
  }

  /** Enough rounds for the excess of the rate over a page per interval to exceed any burst. */
  lemma {:induction false} EnoughRounds(excess: real, burst: nat) returns (n: nat)
    requires excess > 0.0
    ensures n as real * excess > burst as real
  {
    MulDiv(burst as real, excess);
    n := (burst as real / excess).Floor + 1;
    ScaleLess(burst as real / excess, n as real, excess);
  }

  /** One page per interval, against the rate. */
  lemma {:induction false} FallsBehind(n: nat, batch: nat, rate: real, interval: real, burst: nat)
    requires n as real * (rate * interval - batch as real) > burst as real
    ensures 1.0 > (n * batch + 1) as real - rate * (n as real * interval) + burst as real
  {
    assert n as real * (rate * interval - batch as real) == n as real * (rate * interval) - n as real * batch as real;
    assert n as real * (rate * interval) == rate * (n as real * interval);
    assert n as real * batch as real == (n * batch) as real;
  }

  /** A run of the loop that never empties its backlog within n rounds, with a limiter of that rate and burst. */
  ghost predicate Backlogged(cfg: Config, worlds: seq<World>, times: seq<real>, n: nat, rate: real, burst: nat) {
    && Loop(cfg, worlds, times) && n < |worlds| && NeverEmpty(cfg, worlds, times, n)
    && worlds[0].a.bucket.rate == rate && worlds[0].a.bucket.burst == burst
  }

  /** Where a page fits into the bucket and the rate exceeds a page per interval, a process that starts on a
      large enough index with a full bucket falls behind the rate. */
  lemma {:induction false} FallingBehind(cfg: Config, rate: real, burst: nat)
      returns (worlds: seq<World>, times: seq<real>, n: nat)
    requires !cfg.shed && cfg.batch > 0 && cfg.interval >= 0.0 && rate > 0.0
    requires cfg.batch <= burst && rate * cfg.interval > cfg.batch as real
    ensures Backlogged(cfg, worlds, times, n, rate, burst) && !KeepsRate(worlds, times, n)
    ensures worlds[0] == Filled(cfg, n * cfg.batch + 1, rate, burst)
  {
    hide InScope, Ahead, Refill, Round, Sent;
    n := EnoughRounds(rate * cfg.interval - cfg.batch as real, burst);
    var w := Filled(cfg, n * cfg.batch + 1, rate, burst);
    QueueIsAhead(cfg, n * cfg.batch + 1, rate, burst);
    FullAtStart(w.a.bucket);
    worlds, times := RoundsExist(cfg, w, 0.0, n);
    PagesAhead(cfg, worlds, times, n, n);
    DrainsByThePage(cfg, worlds, times, n);
    NeverEmptied(cfg, worlds, times, n);
    FallsBehind(n, cfg.batch, rate, cfg.interval, burst);
  }

  lemma {:induction false} FullAtStart(b: Bucket)
    requires b.tokens == b.burst as real
    ensures Refill(b, b.last).tokens == b.burst as real
  {
  }

  lemma {:induction false} NeverEmptied(cfg: Config, worlds: seq<World>, times: seq<real>, n: nat)
    requires Loop(cfg, worlds, times) && n < |worlds| && forall i :: 0 <= i < n ==> Ahead(worlds[i]) > cfg.batch
    ensures NeverEmpty(cfg, worlds, times, n)
  {
    forall i | 0 <= i < n ensures !Empties(cfg, worlds[i], times[i]) {
      PageOfEvents(worlds[i].index, worlds[i].a.cursor, cfg.batch);
    }
  }

  /** The configured rate drains a backlog in every run exactly when a page does not fit into the bucket or a page
      per interval is not less than the rate. */
  lemma {:induction false} RateIsKeptIff(cfg: Config, rate: real, burst: nat)
    requires !cfg.shed && cfg.batch > 0 && cfg.interval >= 0.0 && rate > 0.0
    ensures (forall worlds, times, n :: Backlogged(cfg, worlds, times, n, rate, burst) ==> KeepsRate(worlds, times, n))
       <==> (cfg.batch <= burst ==> rate * cfg.interval <= cfg.batch as real)
  {
    hide Round, NeverEmpty, KeepsRate, AllEvents, InScope, Refill;
    if cfg.batch <= burst && rate * cfg.interval > cfg.batch as real {
      var worlds, times, n := FallingBehind(cfg, rate, burst);
    } else {
      forall worlds, times, n | Backlogged(cfg, worlds, times, n, rate, burst) ensures KeepsRate(worlds, times, n) {
        RateIsKept(cfg, worlds, times, n);
      }
    }
  }

  lemma {:induction false} RateIsKept(cfg: Config, worlds: seq<World>, times: seq<real>, n: nat)
    requires Loop(cfg, worlds, times) && n < |worlds| && NeverEmpty(cfg, worlds, times, n)
    requires Sustained(cfg, worlds[0].a.bucket, worlds[0].a.bucket.rate)
    ensures KeepsRate(worlds, times, n)
  {
    hide Round, NeverEmpty, Ahead, AllEvents, InScope, Refill, Sustained;
    DrainsAtRate(cfg, worlds, times, n, worlds[0].a.bucket.rate);
  }
}
