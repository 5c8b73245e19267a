/**
 Loss accounting of the adapter: the counters of both rate-limit modes, and what shed mode gives
 up (src/soctalk_adapter/main.py, `_ingest_once`).
 */
module ShedMode {
  import opened Wrappers
  import opened Keyset
  import opened ControlPlanes
  import opened TokenBuckets
  import opened AdapterSpec
  import opened IngestProtocol

  // ----- the books of one poll, in both modes

  /** What a completed ingest does to the counters, `a` being the state before and `k` the events it sent. */
  ghost predicate Booked(cfg: Config, a: State, p: Plane, n: nat, k: nat, o: Outcome)
    requires o.result.Some?
  {
    var r := o.result.value;
    && r.forwarded == k && r.forwarded + r.deferred + r.dropped == n
    && (if cfg.shed then r.deferred == 0 else r.dropped == 0)
    && (o.a.forwarded + o.a.duplicate) - (a.forwarded + a.duplicate) == r.forwarded
    && o.a.forwarded - a.forwarded == |o.p.log| - |p.log|
    && o.a.dropped - a.dropped == r.dropped && o.a.deferred - a.deferred == r.deferred
    && o.a.queried - a.queried == r.queried
  }

  lemma {:induction false} AdvanceBooks(cfg: Config, a: State, p: Plane, page: seq<Doc>, k: nat, save: Fault)
    requires k <= |Events(page)|
    ensures var o := Advance(cfg, a, p, page, k, save);
      && o.result.Some? && o.result.value.forwarded == k && o.result.value.queried == |page|
      && o.result.value.deferred == (if cfg.shed then 0 else |Events(page)| - k)
      && o.result.value.dropped == (if cfg.shed then |Events(page)| - k else 0)
      && (o.a.forwarded + o.a.duplicate) - (a.forwarded + a.duplicate) == k
      && o.a.forwarded - a.forwarded == |o.p.log| - |p.log|
      && o.a.dropped == a.dropped && o.a.deferred == a.deferred && o.a.queried == a.queried
  {
    hide Events, Accept, Duplicates, NextCursor;
    AcceptExtends(p.log, Events(page)[..k]);
    assert |Events(page)[..k]| == k;
  }

  lemma {:induction false} DeliverBooks(cfg: Config, a: State, p: Plane, page: seq<Doc>, now: real, net: Net)
    requires Ready(a, now)
    ensures var k := Capacity(a, Events(page), now);
      var o := Deliver(cfg, Cut(cfg, a, page, now), p, page, k, net);
      o.result.Some? ==> Booked(cfg, a, p, |Events(page)|, k, o)
  {
    hide Events, Accept, Take, Capacity, Advance;
    AdvanceBooks(cfg, Cut(cfg, a, page, now), p, page, Capacity(a, Events(page), now), net.save);
  }

  lemma {:induction false} IngestBooks(cfg: Config, a: State, p: Plane, ix: seq<Doc>, now: real, net: Net)
    requires Ready(a, now)
    ensures var events := Events(Page(ix, a.cursor, cfg.batch));
      var o := IngestOnce(cfg, a, p, ix, now, net);
      o.result.Some? ==> Booked(cfg, a, p, |events|, Capacity(a, events, now), o)
  {
    hide Events, Page, Deliver, Cut;
    DeliverBooks(cfg, a, p, Page(ix, a.cursor, cfg.batch), now, net);
  }

  /** Every mapped event of a completed poll is forwarded, deferred or dropped, and deferring and
      dropping exclude each other; the counters move by exactly that, and what is forwarded is what the
      control plane newly accepted plus its duplicates. */
  lemma {:induction false} PollAccounts(cfg: Config, w: World, now: real, net: Net)
    requires Ready(w.a, now)
    requires PollCycle(cfg, w.a, w.plane, w.index, now, net).result.Some?
    ensures var o := PollCycle(cfg, w.a, w.plane, w.index, now, net);
      var r := o.result.value;
      && r.forwarded + r.deferred + r.dropped == |Events(Page(w.index, w.a.cursor, cfg.batch))|
      && (if cfg.shed then r.deferred == 0 else r.dropped == 0)
      && (o.a.forwarded + o.a.duplicate) - (w.a.forwarded + w.a.duplicate) == r.forwarded
      && o.a.forwarded - w.a.forwarded == |o.p.log| - |w.plane.log|
      && o.a.dropped - w.a.dropped == r.dropped && o.a.deferred - w.a.deferred == r.deferred
      && o.a.queried - w.a.queried == r.queried
  {
    hide IngestOnce, Events, Page, Capacity;
    IngestBooks(cfg, w.a, w.plane, w.index, now, net);
  }

  /** A poll that fails leaves the forwarding counters and the cursor alone. */
  lemma {:induction false} FailedPollCountsNothing(cfg: Config, w: World, now: real, net: Net)
    requires Ready(w.a, now)
    requires PollCycle(cfg, w.a, w.plane, w.index, now, net).result == None
    ensures var o := PollCycle(cfg, w.a, w.plane, w.index, now, net);
      && o.a.forwarded == w.a.forwarded && o.a.duplicate == w.a.duplicate && o.a.cursor == w.a.cursor
      && o.p.row == w.plane.row && o.a.dropped >= w.a.dropped
  {
  }

  /** What the completed polls of steps i up to k forwarded. */
  function ForwardedBetween(cfg: Config, worlds: seq<World>, steps: seq<Step>, i: nat, k: nat): nat
    requires IsRun(cfg, worlds, steps) && i <= k <= |steps|
    decreases k
  {
    if i == k then 0
    else
      var w, s := worlds[k - 1], steps[k - 1];
      assert Enabled(cfg, w, s);
      ForwardedBetween(cfg, worlds, steps, i, k - 1) + (if s.Poll? then ForwardedBy(cfg, w, s.now, s.net) else 0)
  }

  function ForwardedBy(cfg: Config, w: World, now: real, net: Net): nat
    requires Ready(w.a, now)
  {
    var r := PollCycle(cfg, w.a, w.plane, w.index, now, net).result;
    if r.Some? then r.value.forwarded else 0
  }

  ghost predicate SameProcess(steps: seq<Step>) {
    forall i :: 0 <= i < |steps| ==> !steps[i].Restart?
  }

  lemma {:induction false} PollForwards(cfg: Config, w: World, now: real, net: Net)
    requires Ready(w.a, now)
    ensures var o := PollCycle(cfg, w.a, w.plane, w.index, now, net);
      (o.a.forwarded + o.a.duplicate) - (w.a.forwarded + w.a.duplicate) == ForwardedBy(cfg, w, now, net)
  {
    hide PollCycle;
    if PollCycle(cfg, w.a, w.plane, w.index, now, net).result.Some? {
      PollAccounts(cfg, w, now, net);
    } else {
      FailedPollCountsNothing(cfg, w, now, net);
    }
  }

  /** Within one process, the forwarded and duplicate counters together grow by exactly the sum of the
      forwarded batches. */
  lemma {:induction false} CountersSumBatches(cfg: Config, worlds: seq<World>, steps: seq<Step>, i: nat, k: nat)
    requires IsRun(cfg, worlds, steps) && SameProcess(steps) && i <= k <= |steps|
    ensures (worlds[k].a.forwarded + worlds[k].a.duplicate) - (worlds[i].a.forwarded + worlds[i].a.duplicate)
         == ForwardedBetween(cfg, worlds, steps, i, k)
    decreases k
  {
    if i < k {
      CountersSumBatches(cfg, worlds, steps, i, k - 1);
      var w, s := worlds[k - 1], steps[k - 1];
      assert Enabled(cfg, w, s) && worlds[k - 1 + 1] == Next(cfg, w, s);
      hide PollCycle, ForwardedBy;
      if s.Poll? {
        PollForwards(cfg, w, s.now, s.net);
      }
    }
  }

  // ----- what shed mode gives up

  /** One process that has started up: only its polls move the cursor. */
  ghost predicate Started(steps: seq<Step>) {
    forall i :: 0 <= i < |steps| ==> !steps[i].Restart? && !steps[i].Load?
  }

  /** The events the cursor has passed although they were never accepted. */
  ghost function Lost(w: World): set<Doc> {
    set d | d in w.index && d.mappable && !Past(d, w.a.cursor) && d.id !in w.plane.log
  }

  /** Past the last event of a page, the cursor has passed exactly that page's events in addition. */
  lemma {:induction false} PassedByPage(ix: seq<Doc>, c: Cursor, limit: nat)
    requires Sorted(ix) && Events(Page(ix, c, limit)) != []
    ensures var events := Events(Page(ix, c, limit));
      && (forall d :: d in events ==> d in ix && d.mappable && Past(d, c))
      && (forall d :: d in ix && d.mappable ==> (!Past(d, Key(events[|events| - 1])) <==> !Past(d, c) || d in events))
  {
    var events := Events(Page(ix, c, limit));
    var c' := Key(events[|events| - 1]);
    assert events[..|events|] == events;
    hide Rank, Page, Events, Past, Sorted, Key;
    forall d: Doc ensures d in events <==> d in ix && d.mappable && Past(d, c) && !Past(d, c') {
      PassedEvents(ix, c, limit, |events|, d);
    }
    ForwardingAdvances(ix, c, limit, |events|);
    forall d: Doc | !Past(d, c) ensures !Past(d, c') {
      NotPastLater(c, c', d);
    }
  }

  lemma {:induction false} NotPastLater(c: Cursor, c': Cursor, d: Doc)
    requires Before(c, c') && !Past(d, c)
    ensures !Past(d, c')
  {
  }

  /** A poll that got as far as advancing past a page with events. */
  ghost predicate Advances(cfg: Config, w: World, now: real, net: Net)
    requires Ready(w.a, now)
  {
    && PollCycle(cfg, w.a, w.plane, w.index, now, net).result.Some?
    && Events(Page(w.index, w.a.cursor, cfg.batch)) != []
  }

  /** The events a post of the first m brings to the control plane, whether or not the adapter learns of it. */
  function Brought(events: seq<Doc>, m: nat, reached: bool, post: Fault): seq<Doc>
    requires m <= |events|
  {
    if reached && post != LostBefore then events[..m] else []
  }

  /** What an ingest does in shed mode: if it completes on a page with events, the cursor passes every
      event of the page and what was not sent is booked; otherwise the cursor stays, and what was not to be
      sent is booked all the same if the index was reached. */
  ghost predicate Sheds(a: State, p: Plane, events: seq<Doc>, m: nat, reached: bool, post: Fault, advances: bool,
      o: Outcome)
  {
    && m <= |events|
    && o.p.log == Accept(p.log, Brought(events, m, reached, post))
    && if advances then
         && events != [] && o.a.cursor == Key(events[|events| - 1])
         && Brought(events, m, reached, post) == events[..m]
         && o.a.dropped == a.dropped + (|events| - m)
       else
         && o.a.cursor == a.cursor && o.a.dropped == a.dropped + (if reached then |events| - m else 0)
         && (reached && post == Delivered ==> events == [])
  }

  lemma {:induction false} ShedDeliver(cfg: Config, a: State, p: Plane, page: seq<Doc>, now: real, net: Net)
    requires cfg.shed && Ready(a, now) && Events(page) != []
    ensures var k := Capacity(a, Events(page), now);
      var o := Deliver(cfg, Cut(cfg, a, page, now), p, page, k, net);
      Sheds(a, p, Events(page), k, true, net.post, o.result.Some?, o)
  {
    AcceptNothing(p.log, Events(page));
    hide Events, Accept, Duplicates, Take, Put, Capacity, ResultOf, Key;
    forall p', c, f ensures SavePlane(p', c, f).log == p'.log {
      SaveMoves(p', c, f);
    }
  }

  lemma {:induction false} ShedIngest(cfg: Config, a: State, p: Plane, ix: seq<Doc>, now: real, net: Net)
    requires cfg.shed && Ready(a, now)
    ensures var events := Events(Page(ix, a.cursor, cfg.batch));
      var o := IngestOnce(cfg, a, p, ix, now, net);
      Sheds(a, p, events, Capacity(a, events, now), net.queried, net.post, o.result.Some? && events != [], o)
      && (!net.queried ==> o.result == None)
  {
    var page := Page(ix, a.cursor, cfg.batch);
    AcceptNothing(p.log, Events(page));
    hide Events, Page, Deliver, Cut, Accept;
    if net.queried && Events(page) != [] {
      ShedDeliver(cfg, a, p, page, now, net);
    }
  }

  lemma {:induction false} ShedPoll(cfg: Config, w: World, now: real, net: Net) returns (m: nat)
    requires cfg.shed && Ready(w.a, now)
    ensures var o := PollCycle(cfg, w.a, w.plane, w.index, now, net);
      var events := Events(Page(w.index, w.a.cursor, cfg.batch));
      && m == Capacity(w.a, events, now)
      && Sheds(w.a, w.plane, events, m, net.tokenRead && net.queried, net.post, Advances(cfg, w, now, net), o)
  {
    AcceptNothing(w.plane.log, Events(Page(w.index, w.a.cursor, cfg.batch)));
    hide IngestOnce, Events, Page, Capacity, Accept;
    m := Capacity(w.a, Events(Page(w.index, w.a.cursor, cfg.batch)), now);
    ShedIngest(cfg, w.a, w.plane, w.index, now, net);
  }

  /** The cursor moves past the events of its page, the first m of which are accepted. */
  ghost predicate AdvancesPast(w: World, w': World, events: seq<Doc>, m: nat) {
    && w'.index == w.index && events != [] && m <= |events|
    && w'.plane.log == Accept(w.plane.log, events[..m])
    && (forall d :: d in events ==> d in w.index && d.mappable && Past(d, w.a.cursor))
    && (forall d :: d in w.index && d.mappable ==> (!Past(d, w'.a.cursor) <==> !Past(d, w.a.cursor) || d in events))
  }

  lemma {:induction false} PageIsPassed(cfg: Config, w: World, w': World, m: nat)
    requires Sorted(w.index) && w'.index == w.index
    requires var events := Events(Page(w.index, w.a.cursor, cfg.batch));
      && events != [] && m <= |events|
      && w'.a.cursor == Key(events[|events| - 1]) && w'.plane.log == Accept(w.plane.log, events[..m])
    ensures AdvancesPast(w, w', Events(Page(w.index, w.a.cursor, cfg.batch)), m)
  {
    hide Page, Events, Sorted, Past, Key, Accept, Rank;
    PassedByPage(w.index, w.a.cursor, cfg.batch);
  }

  lemma {:induction false} GrowthLosesNothing(cfg: Config, w: World, ix: seq<Doc>)
    requires Enabled(cfg, w, Grow(ix))
    ensures Lost(w.(index := ix)) == Lost(w)
  {
  }

  // ----- how much it is

  /** The unsent events of a page that the log holds all the same. */
  ghost function Redone(log: seq<int>, events: seq<Doc>, m: nat): set<Doc>
    requires m <= |events|
  {
    set d | d in events[m..] && d.id in log
  }

  /** The lost events that a post brings after all. */
  ghost function Recovered(w: World, events: seq<Doc>): set<Doc> {
    set d | d in Lost(w) && exists e :: e in events && e.id == d.id
  }

  /** What the books show beyond the loss: a completed poll books shed events that were accepted, a poll whose
      post fails books events that stay ahead of the cursor, and any post may bring the id of a lost event. */
  ghost function Spared(cfg: Config, w: World, s: Step): nat
    requires Enabled(cfg, w, s)
  {
    match s
    case Poll(now, net) =>
      var events := Events(Page(w.index, w.a.cursor, cfg.batch));
      var m := Capacity(w.a, events, now);
      var reached := net.tokenRead && net.queried;
      |Recovered(w, Brought(events, m, reached, net.post))|
      + (if Advances(cfg, w, now, net) then |Redone(Accept(w.plane.log, events[..m]), events, m)|
         else if reached then |events| - m
         else 0)
    case LatePost(events) => |Recovered(w, events)|
    case _ => 0
  }

  ghost function SparedIn(cfg: Config, worlds: seq<World>, steps: seq<Step>, n: nat): nat
    requires IsRun(cfg, worlds, steps) && n <= |steps|
  {
    if n == 0 then 0
    else
      assert Enabled(cfg, worlds[n - 1], steps[n - 1]);
      SparedIn(cfg, worlds, steps, n - 1) + Spared(cfg, worlds[n - 1], steps[n - 1])
  }

  lemma {:induction false} EventsDistinct(ix: seq<Doc>, c: Cursor, limit: nat)
    requires Sorted(ix)
    ensures Distinct(Events(Page(ix, c, limit)))
  {
    var p := Rank(ix, c);
    var page := Page(ix, c, limit);
    assert Distinct(page) by {
      forall i, j | 0 <= i < j < |page| ensures page[i] != page[j] {
        assert page[i] == ix[p + i] && page[j] == ix[p + j];
        assert Before(Key(ix[p + i]), Key(ix[p + j]));
      }
    }
    FilteredDistinct(page);
  }

  lemma {:induction false} FilteredDistinct(docs: seq<Doc>)
    requires Distinct(docs)
    ensures Distinct(Events(docs))
  {
    if docs != [] {
      var init, last := docs[..|docs| - 1], docs[|docs| - 1];
      FilteredDistinct(init);
      EventsAreMappable(init, last);
    }
  }

  /** Past the page, a lost event is one of the lost that the page did not bring, or an unsent one that the
      log does not hold. */
  lemma {:induction false} AdvanceLosesIff(w: World, w': World, events: seq<Doc>, m: nat, d: Doc)
    requires AdvancesPast(w, w', events, m)
    ensures d in Lost(w) ==> d !in events && (d in Lost(w') <==> d !in Recovered(w, events[..m]))
    ensures d in events[m..] ==> (d in Lost(w') <==> d !in Redone(w'.plane.log, events, m))
    ensures d in Lost(w') ==> d in Lost(w) || d in events[m..]
  {
    AcceptMembers(w.plane.log, events[..m], d.id);
    assert events == events[..m] + events[m..];
    hide Past, Accept;
  }

  lemma {:induction false} UnsentSize(log: seq<int>, events: seq<Doc>, m: nat)
    requires Distinct(events) && m <= |events|
    ensures |Range(events[m..]) - Redone(log, events, m)| + |Redone(log, events, m)| == |events| - m
  {
    var unsent, redone := Range(events[m..]), Redone(log, events, m);
    RangeSize(events[m..]);
    UnionSize(unsent - redone, redone);
    assert unsent - redone + redone == unsent;
  }

  lemma {:induction false} UnionSize(a: set<Doc>, b: set<Doc>)
    requires a !! b
    ensures |a + b| == |a| + |b|
  {
  }

  lemma {:induction false} Remaining(a: set<Doc>, b: set<Doc>)
    requires b <= a
    ensures |a - b| + |b| == |a|
  {
    UnionSize(a - b, b);
    assert a - b + b == a;
  }

  /** Past a page, what is lost: what was lost and not brought by the page, and its unsent events unless the
      log holds them. */
  lemma {:induction false} AdvanceLosesExactly(w: World, w': World, events: seq<Doc>, m: nat)
    requires AdvancesPast(w, w', events, m) && Distinct(events)
    ensures var recovered, redone := Recovered(w, events[..m]), Redone(w'.plane.log, events, m);
      && Lost(w') == (Lost(w) - recovered) + (Range(events[m..]) - redone)
      && |Lost(w')| + |recovered| + |redone| == |Lost(w)| + |events| - m
  {
    var unsent, recovered, redone := Range(events[m..]), Recovered(w, events[..m]), Redone(w'.plane.log, events, m);
    assert recovered <= Lost(w);
    assert forall d: Doc :: d in unsent ==> d in events;
    hide AdvancesPast, Lost, Past, Distinct, Recovered, Redone;
    forall d: Doc
      ensures d in Lost(w) ==> d !in unsent && (d in Lost(w') <==> d !in recovered)
      ensures d in unsent ==> (d in Lost(w') <==> d !in redone)
      ensures d in Lost(w') ==> d in Lost(w) || d in unsent
    {
      AdvanceLosesIff(w, w', events, m, d);
    }
    assert Lost(w') == (Lost(w) - recovered) + (unsent - redone);
    UnsentSize(w'.plane.log, events, m);
    UnionSize(Lost(w) - recovered, unsent - redone);
    Remaining(Lost(w), recovered);
  }

  lemma {:induction false} PostRecovers(w: World, events: seq<Doc>)
    ensures var w' := w.(plane := w.plane.(log := Accept(w.plane.log, events)));
      Lost(w') == Lost(w) - Recovered(w, events) && |Lost(w')| + |Recovered(w, events)| == |Lost(w)|
  {
    var w' := w.(plane := w.plane.(log := Accept(w.plane.log, events)));
    var recovered := Recovered(w, events);
    assert recovered <= Lost(w);
    hide Accept, Lost, Recovered;
    forall d: Doc ensures d in Lost(w') <==> d in Lost(w) && d !in recovered {
      RecoveredOrLost(w, events, d);
    }
    Remaining(Lost(w), recovered);
    assert Lost(w') == Lost(w) - recovered;
  }

  lemma {:induction false} RecoveredOrLost(w: World, events: seq<Doc>, d: Doc)
    ensures d in Lost(w.(plane := w.plane.(log := Accept(w.plane.log, events))))
       <==> d in Lost(w) && d !in Recovered(w, events)
  {
    AcceptMembers(w.plane.log, events, d.id);
    hide Past, Accept;
  }

  /** One step: what is lost, and what was spared, is what `dropped` gains. */
  ghost predicate LossExplained(w: World, w': World, spared: nat) {
    |Lost(w')| - |Lost(w)| + spared == w'.a.dropped - w.a.dropped
  }

  lemma {:induction false} PollLosesExactly(cfg: Config, w: World, now: real, net: Net)
    requires cfg.shed && Sorted(w.index) && Enabled(cfg, w, Poll(now, net))
    ensures LossExplained(w, Next(cfg, w, Poll(now, net)), Spared(cfg, w, Poll(now, net)))
  {
    hide Page, Events, Lost, Sorted, Redone, Recovered, Capacity, PollCycle, Accept, Key, AdvancesPast, Posted, Saved;
    var m := ShedPoll(cfg, w, now, net);
    var w' := Next(cfg, w, Poll(now, net));
    var events := Events(Page(w.index, w.a.cursor, cfg.batch));
    if Advances(cfg, w, now, net) {
      PageIsPassed(cfg, w, w', m);
      EventsDistinct(w.index, w.a.cursor, cfg.batch);
      AdvanceLosesExactly(w, w', events, m);
    } else {
      var brought := Brought(events, m, net.tokenRead && net.queried, net.post);
      PostRecovers(w, brought);
      SameLoss(w', w.(plane := w.plane.(log := Accept(w.plane.log, brought))));
    }
  }

  lemma {:induction false} SameLoss(v: World, w: World)
    requires v.index == w.index && v.a.cursor == w.a.cursor && v.plane.log == w.plane.log
    ensures Lost(v) == Lost(w)
  {
  }

  lemma {:induction false} StepLosesExactly(cfg: Config, w: World, s: Step)
    requires cfg.shed && InScope(cfg, w.index) && Enabled(cfg, w, s) && !s.Restart? && !s.Load?
    ensures LossExplained(w, Next(cfg, w, s), Spared(cfg, w, s)) && InScope(cfg, Next(cfg, w, s).index)
  {
    match s
    case Poll(now, net) => PollLosesExactly(cfg, w, now, net);
    case Grow(ix) => GrowthLosesNothing(cfg, w, ix);
    case LatePost(events) => PostRecovers(w, events);
    case BeginPolling(now) => assert Lost(Next(cfg, w, s)) == Lost(w);
    case Pace(_, now) => assert Lost(Next(cfg, w, s)) == Lost(w);
    case LatePut(c) => assert Lost(Next(cfg, w, s)) == Lost(w);
  }

  /** In shed mode, over any run of one process and whatever fails: what `alerts_dropped_rate_limit` gains is
      what was lost, plus the shed events that were accepted, plus what polls with a failed post booked,
      plus the lost events whose ids a post brought. */
  lemma {:induction false} LossIsExact(cfg: Config, worlds: seq<World>, steps: seq<Step>, n: nat)
    requires cfg.shed && IsRun(cfg, worlds, steps) && Started(steps) && InScope(cfg, worlds[0].index) && n <= |steps|
    ensures |Lost(worlds[n])| - |Lost(worlds[0])| + SparedIn(cfg, worlds, steps, n)
         == worlds[n].a.dropped - worlds[0].a.dropped
    ensures InScope(cfg, worlds[n].index)
  {
    hide Next, Lost, Enabled, InScope, Spared;
    if n > 0 {
      LossIsExact(cfg, worlds, steps, n - 1);
      StepLosesExactly(cfg, worlds[n - 1], steps[n - 1]);
    }
  }

  /** So the events the cursor passed without their being accepted number at most the increase of
      `alerts_dropped_rate_limit`. */
  lemma {:induction false} LossIsBounded(cfg: Config, worlds: seq<World>, steps: seq<Step>, n: nat)
    requires cfg.shed && IsRun(cfg, worlds, steps) && Started(steps) && InScope(cfg, worlds[0].index) && n <= |steps|
    ensures |Lost(worlds[n])| - |Lost(worlds[0])| <= worlds[n].a.dropped - worlds[0].a.dropped
    ensures InScope(cfg, worlds[n].index)
  {
    LossIsExact(cfg, worlds, steps, n);
  }

  // ----- when the counter is the loss

  ghost predicate DistinctIds(ix: seq<Doc>) {
    forall d, e :: d in ix && e in ix && d.id == e.id ==> d == e
  }

  ghost predicate DistinctAlways(worlds: seq<World>) {
    forall i :: 0 <= i < |worlds| ==> DistinctIds(worlds[i].index)
  }

  /** No post of the run fails, and none arrives again. */
  ghost predicate PostsSucceed(steps: seq<Step>) {
    forall i :: 0 <= i < |steps| ==> !steps[i].LatePost? && (steps[i].Poll? ==> steps[i].net.post == Delivered)
  }

  lemma {:induction false} NothingSparedIff(cfg: Config, worlds: seq<World>, steps: seq<Step>, n: nat)
    requires IsRun(cfg, worlds, steps) && n <= |steps|
    ensures SparedIn(cfg, worlds, steps, n) == 0
       <==> forall i :: 0 <= i < n ==> Enabled(cfg, worlds[i], steps[i]) && Spared(cfg, worlds[i], steps[i]) == 0
  {
    hide Spared, Enabled;
    if n > 0 {
      NothingSparedIff(cfg, worlds, steps, n - 1);
      assert Enabled(cfg, worlds[n - 1], steps[n - 1]);
    }
  }

  /** The poll completes and sheds an event that had been accepted before. */
  ghost predicate ShedsAccepted(cfg: Config, w: World, s: Step) {
    && s.Poll? && Ready(w.a, s.now) && Advances(cfg, w, s.now, s.net)
    && var events := Events(Page(w.index, w.a.cursor, cfg.batch));
       exists d :: d in events[Capacity(w.a, events, s.now)..] && d.id in w.plane.log
  }

  lemma {:induction false} PageIsAhead(ix: seq<Doc>, c: Cursor, limit: nat, m: nat)
    requires Sorted(ix) && m <= |Events(Page(ix, c, limit))|
    ensures forall d :: d in Events(Page(ix, c, limit)) ==> d in ix && Past(d, c)
    ensures forall d :: d in Events(Page(ix, c, limit))[..m] ==> d in ix && Past(d, c)
  {
    if Events(Page(ix, c, limit)) != [] {
      PassedByPage(ix, c, limit);
    }
    hide Page, Events, Sorted, Past;
  }

  /** With distinct ids, events ahead of the cursor bring back nothing that it has passed. */
  lemma {:induction false} AheadRecoversNothing(w: World, events: seq<Doc>)
    requires DistinctIds(w.index) && forall d :: d in events ==> d in w.index && Past(d, w.a.cursor)
    ensures Recovered(w, events) == {}
  {
    hide Past;
  }

  lemma {:induction false} NotSentTwice(events: seq<Doc>, m: nat, d: Doc)
    requires m <= |events| && Distinct(events) && d in events[m..]
    ensures d !in events[..m]
  {
  }

  /** With distinct ids, an unsent event that the log holds has been there before. */
  lemma {:induction false} NoneRedoneIff(log: seq<int>, ix: seq<Doc>, events: seq<Doc>, m: nat)
    requires m <= |events| && Distinct(events) && DistinctIds(ix) && forall d :: d in events ==> d in ix
    ensures |Redone(Accept(log, events[..m]), events, m)| == 0 <==> forall d :: d in events[m..] ==> d.id !in log
  {
    var redone := Redone(Accept(log, events[..m]), events, m);
    assert events == events[..m] + events[m..];
    hide Accept, Distinct;
    forall d | d in events[m..] ensures d in redone <==> d.id in log {
      NotSentTwice(events, m, d);
      AcceptMembers(log, events[..m], d.id);
    }
    if redone != {} {
      var d :| d in redone;
    }
  }

  lemma {:induction false} SparedByRedoing(cfg: Config, w: World, s: Step)
    requires cfg.shed && Enabled(cfg, w, s) && !s.LatePost? && (s.Poll? ==> s.net.post == Delivered)
    requires Sorted(w.index) && DistinctIds(w.index)
    ensures Spared(cfg, w, s) == 0 <==> !ShedsAccepted(cfg, w, s)
  {
    if s.Poll? {
      var m := ShedPoll(cfg, w, s.now, s.net);
      var events := Events(Page(w.index, w.a.cursor, cfg.batch));
      PageIsAhead(w.index, w.a.cursor, cfg.batch, m);
      EventsDistinct(w.index, w.a.cursor, cfg.batch);
      hide Page, Events, PollCycle, Capacity, Redone, Recovered, DistinctIds, Distinct, Accept;
      AheadRecoversNothing(w, Brought(events, m, s.net.tokenRead && s.net.queried, s.net.post));
      NoneRedoneIff(w.plane.log, w.index, events, m);
    }
  }

  /** If no post fails and event ids are distinct, the counter gains exactly what is lost if and only if no poll
      of the run sheds an event that had been accepted before. */
  lemma {:induction false} CounterIsLossIff(cfg: Config, worlds: seq<World>, steps: seq<Step>, n: nat)
    requires cfg.shed && IsRun(cfg, worlds, steps) && Started(steps) && DistinctAlways(worlds) && PostsSucceed(steps)
    requires InScope(cfg, worlds[0].index) && n <= |steps|
    ensures |Lost(worlds[n])| - |Lost(worlds[0])| == worlds[n].a.dropped - worlds[0].a.dropped
       <==> forall i :: 0 <= i < n ==> !ShedsAccepted(cfg, worlds[i], steps[i])
  {
    LossIsExact(cfg, worlds, steps, n);
    NothingSparedIff(cfg, worlds, steps, n);
    hide Spared, SparedIn, Enabled, Next, ShedsAccepted, Lost, DistinctIds;
    forall i | 0 <= i < n
      ensures Enabled(cfg, worlds[i], steps[i])
      ensures Spared(cfg, worlds[i], steps[i]) == 0 <==> !ShedsAccepted(cfg, worlds[i], steps[i])
    {
      LossIsExact(cfg, worlds, steps, i);
      SparedByRedoing(cfg, worlds[i], steps[i]);
    }
  }

  // ----- a start with nothing accepted ahead

  /** Everything accepted so far lies behind the cursor. */
  ghost predicate AcceptedBehind(w: World) {
    forall id :: id in w.plane.log ==> exists d :: d in w.index && d.mappable && !Past(d, w.a.cursor) && d.id == id
  }

  lemma {:induction false} SentOrPassed(w: World, w': World, events: seq<Doc>, m: nat, id: int)
    requires AdvancesPast(w, w', events, m) && AcceptedBehind(w) && id in w'.plane.log
    ensures exists d :: d in w'.index && d.mappable && !Past(d, w'.a.cursor) && d.id == id
  {
    hide Past, Accept;
    AcceptMembers(w.plane.log, events[..m], id);
    if id in w.plane.log {
      var d :| d in w.index && d.mappable && !Past(d, w.a.cursor) && d.id == id;
      assert !Past(d, w'.a.cursor);
    } else {
      var d :| d in events[..m] && d.id == id;
      assert d in events;
    }
  }

  lemma {:induction false} PollKeepsBehind(cfg: Config, w: World, now: real, net: Net)
    requires cfg.shed && Sorted(w.index) && Ready(w.a, now) && net.post == Delivered && AcceptedBehind(w)
    ensures AcceptedBehind(Next(cfg, w, Poll(now, net)))
  {
    var m := ShedPoll(cfg, w, now, net);
    var w' := Next(cfg, w, Poll(now, net));
    var events := Events(Page(w.index, w.a.cursor, cfg.batch));
    if Advances(cfg, w, now, net) {
      PageIsPassed(cfg, w, w', m);
      hide Next, Accept, Past, AcceptedBehind, PollCycle, AdvancesPast;
      forall id | id in w'.plane.log
        ensures exists d :: d in w'.index && d.mappable && !Past(d, w'.a.cursor) && d.id == id
      {
        SentOrPassed(w, w', events, m, id);
      }
      BehindAgain(w');
    }
  }

  lemma {:induction false} BehindAgain(w: World)
    requires forall id :: id in w.plane.log ==>
               exists d :: d in w.index && d.mappable && !Past(d, w.a.cursor) && d.id == id
    ensures AcceptedBehind(w)
  {
  }

  lemma {:induction false} NothingAheadIsAccepted(cfg: Config, w: World, s: Step)
    requires Sorted(w.index) && DistinctIds(w.index) && AcceptedBehind(w)
    ensures !ShedsAccepted(cfg, w, s)
  {
    var events := Events(Page(w.index, w.a.cursor, cfg.batch));
    PageIsAhead(w.index, w.a.cursor, cfg.batch, |events|);
    assert events[..|events|] == events;
    hide Page, Events, Past, Sorted, Capacity;
  }

  lemma {:induction false} StepKeepsBehind(cfg: Config, w: World, s: Step)
    requires cfg.shed && InScope(cfg, w.index) && Enabled(cfg, w, s) && !s.Restart? && !s.Load?
    requires !s.LatePost? && (s.Poll? ==> s.net.post == Delivered) && AcceptedBehind(w)
    ensures AcceptedBehind(Next(cfg, w, s))
  {
    if s.Poll? {
      PollKeepsBehind(cfg, w, s.now, s.net);
    }
    hide PollCycle;
  }

  /** So a process that starts with nothing accepted ahead of its cursor counts its loss exactly, as long as
      no post fails. */
  lemma {:induction false} FreshStartCountsItsLoss(cfg: Config, worlds: seq<World>, steps: seq<Step>, n: nat)
    requires cfg.shed && IsRun(cfg, worlds, steps) && Started(steps) && DistinctAlways(worlds) && PostsSucceed(steps)
    requires InScope(cfg, worlds[0].index) && AcceptedBehind(worlds[0]) && n <= |steps|
    ensures |Lost(worlds[n])| - |Lost(worlds[0])| == worlds[n].a.dropped - worlds[0].a.dropped
  {
    CounterIsLossIff(cfg, worlds, steps, n);
    forall i | 0 <= i < n ensures !ShedsAccepted(cfg, worlds[i], steps[i]) {
      StaysBehind(cfg, worlds, steps, i);
      LossIsExact(cfg, worlds, steps, i);
      NothingAheadIsAccepted(cfg, worlds[i], steps[i]);
    }
  }

  lemma {:induction false} StaysBehind(cfg: Config, worlds: seq<World>, steps: seq<Step>, n: nat)
    requires cfg.shed && IsRun(cfg, worlds, steps) && Started(steps) && DistinctAlways(worlds) && PostsSucceed(steps)
    requires InScope(cfg, worlds[0].index) && AcceptedBehind(worlds[0]) && n <= |steps|
    ensures AcceptedBehind(worlds[n])
  {
    hide Next, Enabled, InScope, DistinctIds, AcceptedBehind;
    if n > 0 {
      StaysBehind(cfg, worlds, steps, n - 1);
      LossIsExact(cfg, worlds, steps, n - 1);
      StepKeepsBehind(cfg, worlds[n - 1], steps[n - 1]);
    }
  }
}
