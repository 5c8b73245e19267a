/**
 Progress of the ingest protocol in defer mode: what a fault-free poll forwards, when the cursor
 moves, how a backlog drains, and how fast events can be posted at all.
 */
module IngestProgress {
  import opened Wrappers
  import opened Keyset
  import opened ControlPlanes
  import opened TokenBuckets
  import opened AdapterSpec
  import opened IngestProtocol

  function PageEvents(cfg: Config, w: World): seq<Doc> {
    Events(Page(w.index, w.a.cursor, cfg.batch))
  }

  /** At least one event can be admitted. */
  ghost predicate HasToken(a: State, now: real) {
    a.bucket.rate <= 0.0 || Refill(a.bucket, now).tokens >= 1.0
  }

  // ----- one fault-free poll

  /** A fault-free poll forwards as many events of its page as the bucket admits and moves the cursor to
      the last of them. */
  lemma {:induction false} FaultFreePoll(cfg: Config, w: World, now: real)
    requires !cfg.shed && Ready(w.a, now)
    ensures var o := PollCycle(cfg, w.a, w.plane, w.index, now, FAULT_FREE);
      var events := PageEvents(cfg, w);
      var m := Capacity(w.a, events, now);
      && o.result.Some? && o.result.value.forwarded == m && o.result.value.deferred == |events| - m
      && o.a.cursor == (if m > 0 then Key(events[m - 1]) else w.a.cursor)
      && o.p.log == Accept(w.plane.log, events[..m])
  {
    hide Events, Page, Accept;
    AcceptNothing(w.plane.log, PageEvents(cfg, w));
    TakeStaysWithinBurst(w.a.bucket, |PageEvents(cfg, w)|, now);
  }

  lemma {:induction false} SplitsAt<T>(s: seq<T>, p: nat, r: nat)
    requires p <= r <= |s|
    ensures s[p..] == s[p..r] + s[r..]
  {
  }

  /** Forwarding the first m events of a page cuts the backlog by exactly m. */
  lemma {:induction false} BacklogShrinks(ix: seq<Doc>, c: Cursor, limit: nat, m: nat)
    requires Sorted(ix) && 0 < m <= |Events(Page(ix, c, limit))|
    ensures Backlog(ix, Key(Events(Page(ix, c, limit))[m - 1])) == Backlog(ix, c) - m
  {
    var r := EventsBetween(ix, c, limit, m);
    SplitsAt(ix, Rank(ix, c), r);
    EventsConcat(ix[Rank(ix, c)..r], ix[r..]);
    hide Rank, Page, Events, Sorted, Key;
  }

  /** The cursor moves if and only if the page holds an event and the bucket a token; when it moves, it
      moves strictly forward and the backlog falls by exactly what was forwarded. */
  lemma {:induction false} PollProgress(cfg: Config, w: World, now: real)
    requires !cfg.shed && Sorted(w.index) && Ready(w.a, now)
    ensures var o := PollCycle(cfg, w.a, w.plane, w.index, now, FAULT_FREE);
      && o.result.Some?
      && (o.a.cursor != w.a.cursor <==> PageEvents(cfg, w) != [] && HasToken(w.a, now))
      && (o.a.cursor != w.a.cursor ==> Before(w.a.cursor, o.a.cursor))
      && Backlog(w.index, o.a.cursor) == Backlog(w.index, w.a.cursor) - o.result.value.forwarded
  {
    FaultFreePoll(cfg, w, now);
    var events := PageEvents(cfg, w);
    var m := Capacity(w.a, events, now);
    if events != [] {
      WholeTokenAdmits(w.a.bucket, |events|, now);
    }
    hide PollCycle, Events, Page, Backlog, Before;
    if m > 0 {
      BacklogShrinks(w.index, w.a.cursor, cfg.batch, m);
      ForwardingAdvances(w.index, w.a.cursor, cfg.batch, m);
      NotBeforeItself(w.a.cursor);
    }
  }

  lemma {:induction false} NotBeforeItself(c: Cursor)
    ensures !Before(c, c)
  {
  }

  ghost predicate AllEvents(ix: seq<Doc>) {
    forall i :: 0 <= i < |ix| ==> ix[i].mappable
  }

  lemma {:induction false} PageOfEvents(ix: seq<Doc>, c: Cursor, limit: nat)
    requires AllEvents(ix)
    ensures |Events(Page(ix, c, limit))| == Min(limit, Backlog(ix, c))
  {
    AllMappable(Page(ix, c, limit));
    AllMappable(ix[Rank(ix, c)..]);
  }

  /** When every document is an event, a fault-free poll with k whole tokens and backlog B forwards exactly
      min(batch, k, B), even if they all share one timestamp. */
  lemma {:induction false} ForwardsExactly(cfg: Config, w: World, now: real)
    requires !cfg.shed && AllEvents(w.index) && Ready(w.a, now) && w.a.bucket.rate > 0.0
    ensures var o := PollCycle(cfg, w.a, w.plane, w.index, now, FAULT_FREE);
      var k := Trunc(Refill(w.a.bucket, now).tokens);
      o.result.Some? && o.result.value.forwarded == Min(cfg.batch, Min(k, Backlog(w.index, w.a.cursor)))
  {
    FaultFreePoll(cfg, w, now);
    PageOfEvents(w.index, w.a.cursor, cfg.batch);
    RefillStaysWithinBurst(w.a.bucket, now);
  }

  // ----- the one way to stand still for good

  lemma {:induction false} FullPageIsStable(ix: seq<Doc>, more: seq<Doc>, c: Cursor, limit: nat)
    requires Sorted(ix + more) && |Page(ix, c, limit)| == limit
    ensures Page(ix + more, c, limit) == Page(ix, c, limit)
  {
    SamePrefixSameRank(ix, more, c);
    var p := Rank(ix, c);
    if p + limit <= |ix| {
      assert (ix + more)[p..][..limit] == ix[p..][..limit];
    }
  }

  lemma {:induction false} SamePrefixSameRank(ix: seq<Doc>, more: seq<Doc>, c: Cursor)
    ensures Rank(ix, c) < |ix| ==> Rank(ix + more, c) == Rank(ix, c)
  {
    if ix != [] && !Past(ix[0], c) {
      assert (ix + more)[1..] == ix[1..] + more;
      SamePrefixSameRank(ix[1..], more, c);
    }
  }

  /** Polls and an index that only grows at its end. */
  ghost predicate PollsAndAppends(worlds: seq<World>, steps: seq<Step>)
    requires |worlds| == |steps| + 1
  {
    forall i :: 0 <= i < |steps| ==> steps[i].Poll? || (steps[i].Grow? && worlds[i].index <= steps[i].index)
  }

  lemma {:induction false} EventlessPollKeepsCursor(cfg: Config, w: World, now: real, net: Net)
    requires Ready(w.a, now) && PageEvents(cfg, w) == []
    ensures PollCycle(cfg, w.a, w.plane, w.index, now, net).a.cursor == w.a.cursor
  {
    hide Page;
  }

  /** Were a full page to hold no mappable document, ingest would stop: whatever is appended to the index
      and however often it polls, the cursor never moves again.  By `PollProgress` this is the only way to
      stand still with a token and something ahead.  A hit is unmappable only without any id of its own, which
      no search hit is, so this bounds what the mapping may do rather than describe a state of the index. */
  lemma {:induction false} EventlessPageStallsForever(cfg: Config, worlds: seq<World>, steps: seq<Step>, n: nat)
    requires IsRun(cfg, worlds, steps) && PollsAndAppends(worlds, steps) && n <= |steps|
    requires InScope(cfg, worlds[0].index) && 0 < cfg.batch
    requires |Page(worlds[0].index, worlds[0].a.cursor, cfg.batch)| == cfg.batch && PageEvents(cfg, worlds[0]) == []
    ensures worlds[n].a.cursor == worlds[0].a.cursor
    ensures Sorted(worlds[n].index)
    ensures Page(worlds[n].index, worlds[n].a.cursor, cfg.batch) == Page(worlds[0].index, worlds[0].a.cursor, cfg.batch)
  {
    if n > 0 {
      EventlessPageStallsForever(cfg, worlds, steps, n - 1);
      var w, s := worlds[n - 1], steps[n - 1];
      assert Enabled(cfg, w, s) && worlds[n - 1 + 1] == Next(cfg, w, s);
      hide IsRun, Page, PollCycle;
      match s
      case Poll(now, net) => EventlessPollKeepsCursor(cfg, w, now, net);
      case Grow(ix) =>
        assert ix == w.index + ix[|w.index|..];
        FullPageIsStable(w.index, ix[|w.index|..], w.a.cursor, cfg.batch);
    }
  }

  // ----- a backlog drains

  ghost predicate DrainingPolls(worlds: seq<World>, steps: seq<Step>)
    requires |worlds| == |steps| + 1
  {
    forall i :: 0 <= i < |steps| ==> steps[i].Poll? && steps[i].net == FAULT_FREE && HasToken(worlds[i].a, steps[i].now)
  }

  lemma {:induction false} DrainStep(cfg: Config, w: World, now: real)
    requires !cfg.shed && 0 < cfg.batch && Sorted(w.index) && AllEvents(w.index) && Ready(w.a, now)
             && HasToken(w.a, now)
    ensures var w' := Next(cfg, w, Poll(now, FAULT_FREE));
      && w'.index == w.index
      && (Backlog(w.index, w.a.cursor) == 0 ==> Backlog(w'.index, w'.a.cursor) == 0)
      && (Backlog(w.index, w.a.cursor) > 0 ==> Backlog(w'.index, w'.a.cursor) < Backlog(w.index, w.a.cursor))
  {
    PollProgress(cfg, w, now);
    PageOfEvents(w.index, w.a.cursor, cfg.batch);
    FaultFreePoll(cfg, w, now);
    var events := PageEvents(cfg, w);
    if events != [] {
      WholeTokenAdmits(w.a.bucket, |events|, now);
    }
  }

  /** With a token at every poll, B fault-free polls drain a backlog of B. */
  lemma {:induction false} Drains(cfg: Config, worlds: seq<World>, steps: seq<Step>, n: nat)
    requires !cfg.shed && 0 < cfg.batch && IsRun(cfg, worlds, steps) && n <= |steps|
    requires DrainingPolls(worlds, steps) && Sorted(worlds[0].index) && AllEvents(worlds[0].index)
    ensures worlds[n].index == worlds[0].index
    ensures var b := Backlog(worlds[0].index, worlds[0].a.cursor);
      Backlog(worlds[n].index, worlds[n].a.cursor) <= if n <= b then b - n else 0
  {
    hide Backlog, PollCycle, HasToken;
    if n > 0 {
      Drains(cfg, worlds, steps, n - 1);
      assert Enabled(cfg, worlds[n - 1], steps[n - 1]) && worlds[n - 1 + 1] == Next(cfg, worlds[n - 1], steps[n - 1]);
      DrainStep(cfg, worlds[n - 1], steps[n - 1].now);
    }
  }

  lemma {:induction false} InSlice<T>(s: seq<T>, p: nat, i: nat)
    requires p <= i < |s|
    ensures s[i] in s[p..]
  {
    assert s[p..][i - p] == s[i];
  }

  lemma {:induction false} NoBacklogMeansAllPassed(ix: seq<Doc>, c: Cursor, d: Doc)
    requires Sorted(ix) && Backlog(ix, c) == 0 && d in ix && d.mappable
    ensures !Past(d, c)
  {
    RankSplits(ix, c);
    var p := Rank(ix, c);
    EventsAreMappable(ix[p..], d);
    hide Rank, Events, Past, Sorted;
    var i :| 0 <= i < |ix| && ix[i] == d;
    if i >= p {
      InSlice(ix, p, i);
    }
  }

  /** Every event of the index is delivered: from any safe state, as many fault-free polls with a token as
      there are events ahead leave every indexed event accepted. */
  lemma {:induction false} EverythingIsDelivered(cfg: Config, worlds: seq<World>, steps: seq<Step>)
    requires !cfg.shed && 0 < cfg.batch && IsRun(cfg, worlds, steps) && DrainingPolls(worlds, steps)
    requires Safe(cfg, worlds[0]) && AllEvents(worlds[0].index)
    requires |steps| >= Backlog(worlds[0].index, worlds[0].a.cursor)
    ensures var w := worlds[|steps|]; forall d :: d in worlds[0].index ==> d.id in w.plane.log
  {
    var n := |steps|;
    Drains(cfg, worlds, steps, n);
    StaysSafe(cfg, worlds, steps, n);
    var w := worlds[n];
    assert InPlay(w, w.a.cursor);
    forall d | d in w.index ensures d.id in w.plane.log {
      NoBacklogMeansAllPassed(w.index, w.a.cursor, d);
    }
  }

  lemma {:induction false} StaysSafe(cfg: Config, worlds: seq<World>, steps: seq<Step>, n: nat)
    requires !cfg.shed && IsRun(cfg, worlds, steps) && Safe(cfg, worlds[0]) && n <= |steps|
    ensures Safe(cfg, worlds[n])
  {
    hide Safe, Enabled, Next;
    if n > 0 {
      StaysSafe(cfg, worlds, steps, n - 1);
      StepKeepsSafe(cfg, worlds[n - 1], steps[n - 1]);
    }
  }

  /** A token is there whenever 1/rate seconds have passed since the bucket was last touched. */
  lemma {:induction false} GapGivesToken(a: State, now: real)
    requires Ready(a, now) && (now - a.bucket.last) * a.bucket.rate >= 1.0
    ensures HasToken(a, now)
  {
    var b := a.bucket;
    assert Refill(b, now).tokens == MinReal(b.burst as real, b.tokens + (now - b.last) * b.rate);
    AtLeastOne(b.burst as real, b.tokens, (now - b.last) * b.rate);
    hide Refill;
  }

  lemma {:induction false} AtLeastOne(burst: real, tokens: real, gain: real)
    requires burst >= 1.0 && tokens >= 0.0 && gain >= 1.0
    ensures MinReal(burst, tokens + gain) >= 1.0
  {
  }

  // ----- how many events can be posted at all

  /** The size of the batch a poll posts, delivered or not. */
  function PostedCount(cfg: Config, w: World, s: Step): nat
    requires s.Poll? ==> Ready(w.a, s.now)
  {
    if s.Poll? && s.net.tokenRead && s.net.queried then Capacity(w.a, PageEvents(cfg, w), s.now) else 0
  }

  function PostedBetween(cfg: Config, worlds: seq<World>, steps: seq<Step>, i: nat, k: nat): nat
    requires IsRun(cfg, worlds, steps) && i <= k <= |steps|
    decreases k
  {
    if i == k then 0
    else
      assert Enabled(cfg, worlds[k - 1], steps[k - 1]);
      PostedBetween(cfg, worlds, steps, i, k - 1) + PostedCount(cfg, worlds[k - 1], steps[k - 1])
  }

  /** One process: no restart; from step i on, its polls and the sleeps between them happen between `from`
      and `to`. */
  ghost predicate PollsWithin(steps: seq<Step>, i: nat, from: real, to: real) {
    forall j :: i <= j < |steps| ==>
      !steps[j].Restart? && (steps[j].Poll? || steps[j].Pace? ==> from <= steps[j].now <= to)
  }

  /** A poll touches the bucket exactly when it takes tokens for a page with events. */
  lemma {:induction false} PollBucket(cfg: Config, w: World, now: real, net: Net)
    requires Ready(w.a, now)
    ensures var events := PageEvents(cfg, w);
      PollCycle(cfg, w.a, w.plane, w.index, now, net).a.bucket
      == if net.tokenRead && net.queried && events != [] then Take(w.a.bucket, |events|, now) else w.a.bucket
  {
    IngestBucket(cfg, w, now, net);
    hide IngestOnce, PageEvents, SavePlane, Take;
  }

  lemma {:induction false} IngestBucket(cfg: Config, w: World, now: real, net: Net)
    requires Ready(w.a, now)
    ensures var events := PageEvents(cfg, w);
      IngestOnce(cfg, w.a, w.plane, w.index, now, net).a.bucket
      == if net.queried && events != [] then Take(w.a.bucket, |events|, now) else w.a.bucket
  {
    hide Page, Events, Take, Accept, Duplicates, NextCursor, ResultOf, SavePlane;
  }

  ghost predicate BucketMoves(b: Bucket, b': Bucket, posted: nat, s: Step) {
    && b'.rate == b.rate && b'.burst == b.burst && Valid(b')
    && ((b' == b && posted == 0)
        || ((s.Poll? || s.Pace?) && b'.last == s.now
            && posted as real + b'.tokens <= b.burst as real
            && posted as real + b'.tokens <= b.tokens + (s.now - b.last) * b.rate))
  }

  lemma {:induction false} PollMovesBucket(cfg: Config, w: World, now: real, net: Net)
    requires Enabled(cfg, w, Poll(now, net)) && w.a.bucket.rate > 0.0 && Valid(w.a.bucket)
    ensures BucketMoves(w.a.bucket, Next(cfg, w, Poll(now, net)).a.bucket, PostedCount(cfg, w, Poll(now, net)),
            Poll(now, net))
  {
    var b, events := w.a.bucket, PageEvents(cfg, w);
    hide PollCycle, PageEvents, Posted, Saved, Refill, Take;
    PollBucket(cfg, w, now, net);
    TakeStaysWithinBurst(b, |events|, now);
    TakeTouches(b, |events|, now);
    OneOperation(b, TakeOp(|events|, now));
  }

  lemma {:induction false} BucketStep(cfg: Config, w: World, s: Step)
    requires Enabled(cfg, w, s) && !s.Restart? && w.a.bucket.rate > 0.0 && Valid(w.a.bucket)
    ensures BucketMoves(w.a.bucket, Next(cfg, w, s).a.bucket, PostedCount(cfg, w, s), s)
  {
    if s.Poll? {
      PollMovesBucket(cfg, w, s.now, s.net);
    } else if s.Pace? {
      RefillStaysWithinBurst(w.a.bucket, s.now);
    }
  }

  lemma {:induction false} TakeTouches(b: Bucket, n: nat, now: real)
    requires b.rate > 0.0
    ensures Take(b, n, now).last == now && Take(b, n, now).rate == b.rate && Take(b, n, now).burst == b.burst
  {
  }

  /** What was posted so far plus what the bucket still holds, against the time since `from`. */
  ghost predicate WithinBudget(b: Bucket, b': Bucket, posted: nat, from: real, to: real) {
    && b'.rate == b.rate && b'.burst == b.burst && Valid(b') && b'.last <= to
    && (b'.last <= from ==> posted as real + b'.tokens <= b.burst as real)
    && (b'.last > from ==> posted as real + b'.tokens <= b.burst as real + (b'.last - from) * b.rate)
  }

  lemma {:induction false} BudgetStep(b: Bucket, c: Bucket, d: Bucket, posted: nat, more: nat, s: Step, from: real,
      to: real)
    requires WithinBudget(b, c, posted, from, to) && BucketMoves(c, d, more, s) && b.rate > 0.0
    requires s.Poll? || s.Pace? ==> from <= s.now <= to
    requires c.last < from ==> posted == 0
    ensures WithinBudget(b, d, posted + more, from, to)
    ensures d.last < from ==> posted + more == 0
  {
    if d != c {
      NonNegative(s.now - from, b.rate);
      if c.last >= from {
        Combine(posted as real, more as real, c.tokens, d.tokens, b.burst as real, c.last - from, s.now - c.last,
            b.rate);
        assert c.last - from + (s.now - c.last) == s.now - from;
      }
    }
  }

  lemma {:induction false} PostedPotential(cfg: Config, worlds: seq<World>, steps: seq<Step>, i: nat, k: nat,
      from: real, to: real)
    requires IsRun(cfg, worlds, steps) && i <= k <= |steps| && PollsWithin(steps, i, from, to)
    requires worlds[i].a.bucket.rate > 0.0 && Valid(worlds[i].a.bucket) && worlds[i].a.bucket.last <= from <= to
    ensures var posted := PostedBetween(cfg, worlds, steps, i, k);
      && WithinBudget(worlds[i].a.bucket, worlds[k].a.bucket, posted, from, to)
      && (worlds[k].a.bucket.last < from ==> posted == 0)
    decreases k
  {
    hide Next, PostedCount, WithinBudget, BucketMoves, InScope, InPlay;
    if i == k {
      StartsWithinBudget(worlds[i].a.bucket, from, to);
    } else {
      PostedPotential(cfg, worlds, steps, i, k - 1, from, to);
      var b, w, s := worlds[i].a.bucket, worlds[k - 1], steps[k - 1];
      assert Enabled(cfg, w, s) && worlds[k - 1 + 1] == Next(cfg, w, s);
      BudgetIsValid(b, w.a.bucket, PostedBetween(cfg, worlds, steps, i, k - 1), from, to);
      BucketStep(cfg, w, s);
      BudgetStep(b, w.a.bucket, worlds[k].a.bucket, PostedBetween(cfg, worlds, steps, i, k - 1),
          PostedCount(cfg, w, s), s, from, to);
    }
  }

  lemma {:induction false} StartsWithinBudget(b: Bucket, from: real, to: real)
    requires Valid(b) && b.last <= from <= to
    ensures WithinBudget(b, b, 0, from, to)
  {
  }

  lemma {:induction false} BudgetIsValid(b: Bucket, c: Bucket, posted: nat, from: real, to: real)
    requires WithinBudget(b, c, posted, from, to)
    ensures Valid(c) && c.rate == b.rate
  {
  }

  /** Whatever the network does, between two restarts the events posted by polls in a stretch of time are at
      most burst + rate * elapsed. */
  lemma {:induction false} PostedBound(cfg: Config, worlds: seq<World>, steps: seq<Step>, i: nat, k: nat, from: real,
      to: real)
    requires IsRun(cfg, worlds, steps) && i <= k <= |steps| && PollsWithin(steps, i, from, to)
    requires worlds[i].a.bucket.rate > 0.0 && Valid(worlds[i].a.bucket) && worlds[i].a.bucket.last <= from <= to
    ensures PostedBetween(cfg, worlds, steps, i, k) as real
         <= worlds[i].a.bucket.burst as real + (to - from) * worlds[i].a.bucket.rate
  {
    hide PostedBetween, PollsWithin, WithinBudget, Valid;
    PostedPotential(cfg, worlds, steps, i, k, from, to);
    var b, c := worlds[i].a.bucket, worlds[k].a.bucket;
    BudgetSpent(b, c, PostedBetween(cfg, worlds, steps, i, k), from, to);
  }

  lemma {:induction false} BudgetSpent(b: Bucket, c: Bucket, posted: nat, from: real, to: real)
    requires WithinBudget(b, c, posted, from, to) && b.rate > 0.0 && from <= to
    ensures posted as real <= b.burst as real + (to - from) * b.rate
  {
    if c.last > from {
      SpentSince(posted as real, c.tokens, b.burst as real, from, c.last, to, b.rate);
    } else {
      NothingSpentSince(posted as real, c.tokens, b.burst as real, to - from, b.rate);
    }
  }

  lemma {:induction false} NothingSpentSince(posted: real, tokens: real, burst: real, span: real, r: real)
    requires posted + tokens <= burst && 0.0 <= tokens && 0.0 <= span && 0.0 <= r
    ensures posted <= burst + span * r
  {
    NonNegative(span, r);
  }

  lemma {:induction false} SpentSince(posted: real, tokens: real, burst: real, from: real, mid: real, to: real, r: real)
    requires posted + tokens <= burst + (mid - from) * r && 0.0 <= tokens && mid <= to && 0.0 <= r
    ensures posted <= burst + (to - from) * r
  {
    NonNegative(to - mid, r);
    SpansAdd(from, mid, to, r);
  }

  lemma {:induction false} SpansAdd(from: real, mid: real, to: real, r: real)
    ensures (mid - from) * r + (to - mid) * r == (to - from) * r
  {
    Distribute(mid - from, to - mid, r);
    assert mid - from + (to - mid) == to - from;
  }
}
