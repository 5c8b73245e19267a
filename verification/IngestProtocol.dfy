/**
 The alert-ingest protocol as a state machine: an index that grows, an adapter that polls,
 restarts and loads its checkpoint, a control plane, and a network that may lose a call before
 or after its effect and may deliver it again, any time later.

 Assumptions about the environment, all in `Enabled`: the index is sorted by distinct keys and
 holds no document older than the fixed initial timestamp; a document that appears sorts after
 every cursor in play; the clock of the bucket does not run backwards.
 */
module IngestProtocol {
  import opened Wrappers
  import opened Keyset
  import opened ControlPlanes
  import opened TokenBuckets
  import opened AdapterSpec

  /** `posts` and `puts` are the batches and cursors sent so far; each may still arrive. */
  datatype World = World(index: seq<Doc>, plane: Plane, a: State, posts: set<seq<Doc>>, puts: set<Cursor>)

  datatype Step =
    | Grow(index: seq<Doc>)
    | Restart(now: real)
    | Load(ok: bool)
    | BeginPolling(now: real)
    | Poll(now: real, net: Net)
    | Pace(deferred: int, now: real)
    | LatePost(events: seq<Doc>)
    | LatePut(c: Cursor)

  ghost predicate InScope(cfg: Config, ix: seq<Doc>) {
    Sorted(ix) && forall d :: d in ix ==> cfg.initialTs <= d.ts
  }

  /** The cursors in play: in memory, durable, and on their way. */
  ghost predicate InPlay(w: World, c: Cursor) {
    c == w.a.cursor || w.plane.row == Some(c) || c in w.puts
  }

  ghost predicate Init(cfg: Config, w: World, now: real) {
    InScope(cfg, w.index) && w.plane == Plane([], None) && w.a == Boot(cfg, now) && w.posts == {} && w.puts == {}
  }

  ghost predicate Enabled(cfg: Config, w: World, s: Step) {
    match s
    case Grow(ix) =>
      && InScope(cfg, ix)
      && (forall d :: d in w.index ==> d in ix)
      && (forall d, c :: d in ix && d !in w.index && InPlay(w, c) ==> Past(d, c))
    case Restart(now) => true
    case Load(ok) => w.a.phase == Starting && !w.a.checkpointLoaded
    case BeginPolling(now) => w.a.phase == Starting
    case Poll(now, net) => w.a.phase == Polling && Ready(w.a, now)
    case Pace(deferred, now) => w.a.phase == Polling && Ready(w.a, now)
    case LatePost(events) => events in w.posts
    case LatePut(c) => c in w.puts
  }

  /** The batch a poll posts, if it gets that far. */
  function Posted(cfg: Config, w: World, now: real, net: Net): set<seq<Doc>>
    requires Ready(w.a, now)
  {
    var events := Events(Page(w.index, w.a.cursor, cfg.batch));
    if net.tokenRead && net.queried && Capacity(w.a, events, now) > 0 then {events[..Capacity(w.a, events, now)]}
        else {}
  }

  /** The cursor a poll saves, if it saves one. */
  function Saved(cfg: Config, w: World, now: real, net: Net): set<Cursor>
    requires Ready(w.a, now)
  {
    if !net.tokenRead then {}
    else
      var o := IngestOnce(cfg, w.a, w.plane, w.index, now, net);
      if o.result.Some? && (o.result.value.advanced || NeedsSave(o.a)) then {o.a.cursor} else {}
  }

  function Next(cfg: Config, w: World, s: Step): World
    requires s.Poll? ==> Ready(w.a, s.now)
  {
    match s
    case Grow(ix) => w.(index := ix)
    case Restart(now) => w.(a := Boot(cfg, now))
    case Load(ok) => w.(a := LoadCheckpoint(w.a, w.plane.row, ok))
    case BeginPolling(now) => w.(a := w.a.(phase := Polling, phaseSince := now))
    case Poll(now, net) =>
      var o := PollCycle(cfg, w.a, w.plane, w.index, now, net);
      World(w.index, o.p, o.a, w.posts + Posted(cfg, w, now, net), w.puts + Saved(cfg, w, now, net))
    case Pace(deferred, now) => w.(a := w.a.(bucket := Paced(w.a.bucket, deferred, now)))
    case LatePost(events) => w.(plane := w.plane.(log := Accept(w.plane.log, events)))
    case LatePut(c) => w.(plane := Put(w.plane, c))
  }

  /** `worlds` is a run of the protocol under `steps`. */
  ghost predicate IsRun(cfg: Config, worlds: seq<World>, steps: seq<Step>) {
    && |worlds| == |steps| + 1
    && forall i :: 0 <= i < |steps| ==>
         Enabled(cfg, worlds[i], steps[i]) && worlds[i + 1] == Next(cfg, worlds[i], steps[i])
  }

  // ----- the safety invariant

  /** Every event at or before the cursor has been accepted. */
  ghost predicate Covered(ix: seq<Doc>, log: seq<int>, c: Cursor) {
    forall d :: d in ix && d.mappable && !Past(d, c) ==> d.id in log
  }

  /** `id` is the id of an event of the index. */
  ghost predicate IsEventId(ix: seq<Doc>, id: int) {
    exists d :: d in ix && d.mappable && d.id == id
  }

  ghost predicate Genuine(ix: seq<Doc>, events: seq<Doc>) {
    forall d :: d in events ==> d in ix && d.mappable
  }

  ghost predicate Safe(cfg: Config, w: World) {
    && InScope(cfg, w.index)
    && Distinct(w.plane.log)
    && (forall c :: InPlay(w, c) ==> Covered(w.index, w.plane.log, c) && AtMost(StartCursor(cfg), c))
    && (forall events :: events in w.posts ==> Genuine(w.index, events))
    && (forall id :: id in w.plane.log ==> IsEventId(w.index, id))
    && Valid(w.a.bucket)
  }

  lemma {:induction false} NothingBeforeStart(cfg: Config, ix: seq<Doc>, log: seq<int>)
    requires InScope(cfg, ix)
    ensures Covered(ix, log, StartCursor(cfg))
  {
  }

  lemma {:induction false} CoveredGrowsWithLog(ix: seq<Doc>, log: seq<int>, events: seq<Doc>, c: Cursor)
    requires Covered(ix, log, c)
    ensures Covered(ix, Accept(log, events), c)
  {
    forall d | d in ix && d.mappable && !Past(d, c) ensures d.id in Accept(log, events) {
      AcceptMembers(log, events, d.id);
    }
  }

  /** Moving the cursor to the last of the first m events of a page covers everything on the way, once
      those m events are accepted. */
  lemma {:induction false} ForwardingCovers(ix: seq<Doc>, log: seq<int>, c: Cursor, limit: nat, m: nat)
    requires Sorted(ix) && Covered(ix, log, c)
    requires 0 < m <= |Events(Page(ix, c, limit))|
    ensures Covered(ix, Accept(log, Events(Page(ix, c, limit))[..m]), Key(Events(Page(ix, c, limit))[m - 1]))
  {
    var events := Events(Page(ix, c, limit));
    var c' := Key(events[m - 1]);
    hide Rank, Page, Events, Past, Sorted, Key, Accept;
    forall d | d in ix && d.mappable && !Past(d, c') ensures d.id in Accept(log, events[..m]) {
      PassedEvents(ix, c, limit, m, d);
      AcceptMembers(log, events[..m], d.id);
    }
  }

  lemma {:induction false} PageIsFromIndex(ix: seq<Doc>, c: Cursor, limit: nat, m: nat)
    requires m <= |Events(Page(ix, c, limit))|
    ensures Genuine(ix, Events(Page(ix, c, limit))[..m])
  {
    var page := Page(ix, c, limit);
    forall d | d in Events(page)[..m] ensures d in ix && d.mappable {
      EventsAreMappable(page, d);
      assert d in Events(page);
      assert d in page;
    }
  }

  /** The cursor only moves forward. */
  lemma {:induction false} ForwardingAdvances(ix: seq<Doc>, c: Cursor, limit: nat, m: nat)
    requires Sorted(ix) && 0 < m <= |Events(Page(ix, c, limit))|
    ensures Before(c, Key(Events(Page(ix, c, limit))[m - 1]))
  {
    var page := Page(ix, c, limit);
    var q := EventPosition(page, m);
    RankSplits(ix, c);
    assert page[q] == ix[Rank(ix, c) + q];
  }

  /** In defer mode a call accepts the first m events of its page, or none, and leaves the cursor at the
      last of them, or where it was; the durable cursor stays or takes the cursor's value. */
  ghost predicate Moves(a: State, p: Plane, events: seq<Doc>, m: nat, o: Outcome) {
    && m <= |events|
    && o.p.log == Accept(p.log, events[..m])
    && (o.a.cursor == a.cursor || (m > 0 && o.a.cursor == Key(events[m - 1])))
    && (o.p.row == p.row || o.p.row == Some(o.a.cursor))
  }

  lemma {:induction false} SaveMoves(p: Plane, c: Cursor, f: Fault)
    ensures SavePlane(p, c, f).log == p.log
    ensures SavePlane(p, c, f).row == p.row || SavePlane(p, c, f).row == Some(c)
  {
  }

  lemma {:induction false} AdvanceMoves(cfg: Config, a: State, p: Plane, page: seq<Doc>, m: nat, save: Fault)
    requires !cfg.shed && m <= |Events(page)|
    ensures var o := Advance(cfg, a, p, page, m, save);
      Moves(a, p, Events(page), m, o) && o.a.bucket == a.bucket && o.result.Some?
  {
  }

  lemma {:induction false} AcceptNothing(log: seq<int>, events: seq<Doc>)
    ensures Accept(log, events[..0]) == log
  {
  }

  lemma {:induction false} IngestMoves(cfg: Config, a: State, p: Plane, ix: seq<Doc>, now: real, net: Net)
      returns (m: nat)
    requires !cfg.shed && Ready(a, now)
    ensures var o := IngestOnce(cfg, a, p, ix, now, net);
      Moves(a, p, Events(Page(ix, a.cursor, cfg.batch)), m, o) && Valid(o.a.bucket)
  {
    var page := Page(ix, a.cursor, cfg.batch);
    hide Events, Accept, Page, Advance;
    var events := Events(page);
    TakeStaysWithinBurst(a.bucket, |events|, now);
    AcceptNothing(p.log, events);
    m := 0;
    if net.queried && events != [] {
      var k := Capacity(a, events, now);
      AdvanceMoves(cfg, Cut(cfg, a, page, now), p, page, k, net.save);
      m := if k > 0 && net.post == LostBefore then 0 else k;
    }
  }

  lemma {:induction false} PollMoves(cfg: Config, w: World, now: real, net: Net) returns (m: nat)
    requires !cfg.shed && Ready(w.a, now)
    ensures var o := PollCycle(cfg, w.a, w.plane, w.index, now, net);
      && Moves(w.a, w.plane, Events(Page(w.index, w.a.cursor, cfg.batch)), m, o)
      && Valid(o.a.bucket)
      && forall c :: c in Saved(cfg, w, now, net) ==> c == o.a.cursor
  {
    hide IngestOnce, Page, Events, Accept;
    m := IngestMoves(cfg, w.a, w.plane, w.index, now, net);
    var o := IngestOnce(cfg, w.a, w.plane, w.index, now, net);
    SaveMoves(o.p, o.a.cursor, net.resave);
    AcceptNothing(w.plane.log, Events(Page(w.index, w.a.cursor, cfg.batch)));
    if !net.tokenRead {
      m := 0;
    }
  }

  lemma {:induction false} PostedIsGenuine(cfg: Config, w: World, now: real, net: Net)
    requires Ready(w.a, now)
    ensures forall events :: events in Posted(cfg, w, now, net) ==> Genuine(w.index, events)
  {
    var events := Events(Page(w.index, w.a.cursor, cfg.batch));
    PageIsFromIndex(w.index, w.a.cursor, cfg.batch, Capacity(w.a, events, now));
  }

  lemma {:induction false} AcceptKeepsGenuine(ix: seq<Doc>, log: seq<int>, events: seq<Doc>)
    requires Genuine(ix, events) && forall id :: id in log ==> IsEventId(ix, id)
    ensures forall id :: id in Accept(log, events) ==> IsEventId(ix, id)
  {
    forall id | id in Accept(log, events) ensures IsEventId(ix, id) {
      AcceptMembers(log, events, id);
    }
  }

  // ----- every step keeps the invariant

  lemma {:induction false} PollKeepsCovered(cfg: Config, w: World, now: real, net: Net, m: nat, c: Cursor)
    requires !cfg.shed && Safe(cfg, w) && Enabled(cfg, w, Poll(now, net))
    requires var o := PollCycle(cfg, w.a, w.plane, w.index, now, net);
      Moves(w.a, w.plane, Events(Page(w.index, w.a.cursor, cfg.batch)), m, o) && (InPlay(w, c) || c == o.a.cursor)
    ensures Covered(w.index, PollCycle(cfg, w.a, w.plane, w.index, now, net).p.log, c) && AtMost(StartCursor(cfg), c)
  {
    hide PollCycle, Page, Events, Accept, Covered, Before, Genuine, Distinct, IsEventId;
    var ix, log := w.index, w.plane.log;
    var events := Events(Page(ix, w.a.cursor, cfg.batch));
    if InPlay(w, c) {
      CoveredGrowsWithLog(ix, log, events[..m], c);
    } else {
      assert InPlay(w, w.a.cursor);
      ForwardingCovers(ix, log, w.a.cursor, cfg.batch, m);
      ForwardingAdvances(ix, w.a.cursor, cfg.batch, m);
      AtMostBefore(StartCursor(cfg), w.a.cursor, c);
    }
  }

  lemma {:induction false} PollKeepsLog(cfg: Config, w: World, now: real, net: Net, m: nat)
    requires !cfg.shed && Safe(cfg, w) && Enabled(cfg, w, Poll(now, net))
    requires var o := PollCycle(cfg, w.a, w.plane, w.index, now, net);
      Moves(w.a, w.plane, Events(Page(w.index, w.a.cursor, cfg.batch)), m, o)
    ensures var log := PollCycle(cfg, w.a, w.plane, w.index, now, net).p.log;
      Distinct(log) && forall id :: id in log ==> IsEventId(w.index, id)
  {
    hide PollCycle, Page, Events, Accept, Covered, Before, Genuine, Distinct, IsEventId, InScope, InPlay;
    var events := Events(Page(w.index, w.a.cursor, cfg.batch));
    PageIsFromIndex(w.index, w.a.cursor, cfg.batch, m);
    AcceptKeepsGenuine(w.index, w.plane.log, events[..m]);
    AcceptsOnce(w.plane.log, events[..m]);
  }

  lemma {:induction false} PollKeepsSafe(cfg: Config, w: World, now: real, net: Net)
    requires !cfg.shed && Safe(cfg, w) && Enabled(cfg, w, Poll(now, net))
    ensures Safe(cfg, Next(cfg, w, Poll(now, net)))
  {
    hide PollCycle, Page, Events, Accept, Posted, Saved, Covered, Before, AtMost, Genuine, Distinct, IsEventId,
         InScope;
    var m := PollMoves(cfg, w, now, net);
    PostedIsGenuine(cfg, w, now, net);
    PollKeepsLog(cfg, w, now, net, m);
    var w' := Next(cfg, w, Poll(now, net));
    forall c | InPlay(w', c) ensures Covered(w'.index, w'.plane.log, c) && AtMost(StartCursor(cfg), c) {
      PollKeepsCovered(cfg, w, now, net, m, c);
    }
  }

  lemma {:induction false} AtMostBefore(a: Cursor, b: Cursor, c: Cursor)
    requires AtMost(a, b) && Before(b, c)
    ensures AtMost(a, c)
  {
  }

  lemma {:induction false} StepKeepsSafe(cfg: Config, w: World, s: Step)
    requires !cfg.shed && Safe(cfg, w) && Enabled(cfg, w, s)
    ensures Safe(cfg, Next(cfg, w, s))
  {
    match s
    case Poll(now, net) => PollKeepsSafe(cfg, w, now, net);
    case Grow(ix) => GrowKeepsSafe(cfg, w, ix);
    case Restart(now) => NothingBeforeStart(cfg, w.index, w.plane.log);
    case Load(ok) => LoadKeepsSafe(cfg, w, ok);
    case BeginPolling(now) =>
    case Pace(_, now) => RefillStaysWithinBurst(w.a.bucket, now);
    case LatePost(events) => LatePostKeepsSafe(cfg, w, events);
    case LatePut(c) => LatePutKeepsSafe(cfg, w, c);
  }

  lemma {:induction false} GrowKeepsSafe(cfg: Config, w: World, ix: seq<Doc>)
    requires Safe(cfg, w) && Enabled(cfg, w, Grow(ix))
    ensures Safe(cfg, Next(cfg, w, Grow(ix)))
  {
  }

  lemma {:induction false} LoadKeepsSafe(cfg: Config, w: World, ok: bool)
    requires Safe(cfg, w) && Enabled(cfg, w, Load(ok))
    ensures Safe(cfg, Next(cfg, w, Load(ok)))
  {
    var c := w.a.cursor.(id := None);
    assert InPlay(w, w.a.cursor);
    assert w.plane.row.Some? ==> InPlay(w, w.plane.row.value);
    assert forall d :: !Past(d, c) ==> !Past(d, w.a.cursor);
    assert Covered(w.index, w.plane.log, c);
    forall d | InPlay(Next(cfg, w, Load(ok)), d) ensures InPlay(w, d) || d == c {
    }
  }

  lemma {:induction false} LatePostKeepsSafe(cfg: Config, w: World, events: seq<Doc>)
    requires Safe(cfg, w) && Enabled(cfg, w, LatePost(events))
    ensures Safe(cfg, Next(cfg, w, LatePost(events)))
  {
    hide Covered, Accept, Genuine;
    AcceptsOnce(w.plane.log, events);
    AcceptKeepsGenuine(w.index, w.plane.log, events);
    forall d | InPlay(w, d) ensures Covered(w.index, Accept(w.plane.log, events), d) {
      CoveredGrowsWithLog(w.index, w.plane.log, events, d);
    }
  }

  lemma {:induction false} LatePutKeepsSafe(cfg: Config, w: World, c: Cursor)
    requires Safe(cfg, w) && Enabled(cfg, w, LatePut(c))
    ensures Safe(cfg, Next(cfg, w, LatePut(c)))
  {
  }

  // ----- the main safety theorem

  lemma {:induction false} RunIsSafe(cfg: Config, worlds: seq<World>, steps: seq<Step>, start: real, n: nat)
    requires !cfg.shed && IsRun(cfg, worlds, steps) && Init(cfg, worlds[0], start) && n <= |steps|
    ensures Safe(cfg, worlds[n])
  {
    hide Safe, Enabled, Next;
    if n == 0 {
      InitIsSafe(cfg, worlds[0], start);
    } else {
      RunIsSafe(cfg, worlds, steps, start, n - 1);
      StepKeepsSafe(cfg, worlds[n - 1], steps[n - 1]);
    }
  }

  lemma {:induction false} InitIsSafe(cfg: Config, w: World, start: real)
    requires Init(cfg, w, start)
    ensures Safe(cfg, w)
  {
  }

  /** In defer mode, in every state of every run, whatever was lost, repeated, delayed or restarted: each
      event at or before the in-memory cursor or the durable cursor has been accepted, no event has been
      accepted twice, and nothing but indexed events was accepted. */
  lemma {:induction false} NothingLostNothingTwice(cfg: Config, worlds: seq<World>, steps: seq<Step>, start: real,
      n: nat)
    requires !cfg.shed && IsRun(cfg, worlds, steps) && Init(cfg, worlds[0], start) && n <= |steps|
    ensures var w := worlds[n];
      && (forall d :: d in w.index && d.mappable && !Past(d, w.a.cursor) ==> d.id in w.plane.log)
      && (w.plane.row.Some? ==>
            forall d :: d in w.index && d.mappable && !Past(d, w.plane.row.value) ==> d.id in w.plane.log)
      && (forall i, j :: 0 <= i < j < |w.plane.log| ==> w.plane.log[i] != w.plane.log[j])
      && (forall id :: id in w.plane.log ==> exists d :: d in w.index && d.mappable && d.id == id)
  {
    RunIsSafe(cfg, worlds, steps, start, n);
    var w := worlds[n];
    assert InPlay(w, w.a.cursor);
    assert w.plane.row.Some? ==> InPlay(w, w.plane.row.value);
    forall id | id in w.plane.log ensures exists d :: d in w.index && d.mappable && d.id == id {
      assert IsEventId(w.index, id);
    }
  }
}
