/**
 The durable checkpoint and the health the adapter reports, over whole runs and in both
 rate-limit modes (src/soctalk_adapter/main.py: `_load_checkpoint`, `_save_checkpoint`,
 `_poll_cycle`, `_compute_health`; src/soctalk/core/api/adapter.py: `put_checkpoint`).
 */
module CheckpointSync {
  import opened Wrappers
  import opened Keyset
  import opened ControlPlanes
  import opened TokenBuckets
  import opened AdapterSpec
  import opened IngestProtocol

  predicate Synced(a: State) {
    (a.checkpointLoaded || a.checkpointSaved) && !a.saveFailing
  }

  /** The durable cursor is at or past the in-memory one, or that one never left the start. */
  ghost predicate Durable(cfg: Config, a: State, row: Option<Cursor>) {
    a.cursor == StartCursor(cfg) || (row.Some? && AtMost(a.cursor, row.value))
  }

  ghost predicate InSync(cfg: Config, w: World) {
    && (Synced(w.a) ==> Durable(cfg, w.a, w.plane.row))
    && (w.a.phase == Starting && !w.a.checkpointLoaded ==> w.a.cursor == StartCursor(cfg))
  }

  /** A save that arrives late takes the stored timestamp but an id before the cursor of an adapter that has
      moved and counts as synced. */
  ghost predicate Breaks(cfg: Config, w: World, s: Step) {
    && s.LatePut? && Synced(w.a) && w.a.cursor != StartCursor(cfg)
    && w.plane.row.Some? && s.c.ts == w.plane.row.value.ts && Before(s.c, w.a.cursor)
  }

  // ----- one poll

  /** Either nothing changed for the checkpoint, or the cursor moved and was saved, or the save failed. */
  ghost predicate SaveOutcome(a: State, p: Plane, o: Outcome) {
    || (o.a.cursor == a.cursor && o.p.row == p.row && o.a.saveFailing == a.saveFailing
        && o.a.checkpointLoaded == a.checkpointLoaded && o.a.checkpointSaved == a.checkpointSaved)
    || o.a.saveFailing
    || (o.p.row.Some? && AtMost(o.a.cursor, o.p.row.value))
  }

  lemma {:induction false} IngestSaves(cfg: Config, a: State, p: Plane, ix: seq<Doc>, now: real, net: Net)
    requires Ready(a, now)
    ensures var o := IngestOnce(cfg, a, p, ix, now, net);
      SaveOutcome(a, p, o) && o.a.phase == a.phase
  {
    hide Page, Events, Accept, Duplicates, Take, ResultOf, AtMost;
    var events := Events(Page(ix, a.cursor, cfg.batch));
    if net.queried && events != [] {
      MergeReachesPut(p.row, NextCursor(cfg, a.cursor, events, Capacity(a, events, now)));
    }
  }

  lemma {:induction false} PollSaves(cfg: Config, w: World, now: real, net: Net)
    requires Ready(w.a, now)
    ensures var o := PollCycle(cfg, w.a, w.plane, w.index, now, net);
      SaveOutcome(w.a, w.plane, o) && o.a.phase == w.a.phase
  {
    IngestSaves(cfg, w.a, w.plane, w.index, now, net);
    hide IngestOnce, AtMost;
    var o := IngestOnce(cfg, w.a, w.plane, w.index, now, net);
    MergeReachesPut(o.p.row, o.a.cursor);
  }

  lemma {:induction false} PollKeepsSync(cfg: Config, w: World, now: real, net: Net)
    requires InSync(cfg, w) && Enabled(cfg, w, Poll(now, net))
    ensures InSync(cfg, Next(cfg, w, Poll(now, net)))
  {
    PollSaves(cfg, w, now, net);
    hide PollCycle, AtMost, Posted, Saved;
  }

  /** A late put breaks the sync exactly when it is of that kind. */
  lemma {:induction false} LatePutBreaksSyncIff(cfg: Config, w: World, c: Cursor)
    requires InSync(cfg, w)
    ensures InSync(cfg, Next(cfg, w, LatePut(c))) <==> !Breaks(cfg, w, LatePut(c))
  {
  }

  lemma {:induction false} StepSyncIff(cfg: Config, w: World, s: Step)
    requires InSync(cfg, w) && Enabled(cfg, w, s)
    ensures InSync(cfg, Next(cfg, w, s)) <==> !Breaks(cfg, w, s)
  {
    match s
    case Poll(now, net) => PollKeepsSync(cfg, w, now, net);
    case LatePut(c) => LatePutBreaksSyncIff(cfg, w, c);
    case _ =>
  }

  /** Over every run: whenever the adapter considers itself in sync, the durable cursor is at or past the
      in-memory one, or that one has not moved since start, exactly as long as no late save takes the
      stored timestamp with an id before the cursor of a synced adapter. */
  lemma {:induction false} SyncedMeansDurable(cfg: Config, worlds: seq<World>, steps: seq<Step>, start: real, n: nat)
    requires IsRun(cfg, worlds, steps) && Init(cfg, worlds[0], start) && n <= |steps|
    ensures (forall i :: 0 <= i <= n ==> InSync(cfg, worlds[i]))
            <==> (forall i :: 0 <= i < n ==> !Breaks(cfg, worlds[i], steps[i]))
  {
    hide InSync, Next, Breaks, Init;
    if n == 0 {
      InitInSync(cfg, worlds[0], start);
    } else {
      SyncedMeansDurable(cfg, worlds, steps, start, n - 1);
      assert Enabled(cfg, worlds[n - 1], steps[n - 1]) && worlds[n - 1 + 1] == Next(cfg, worlds[n - 1], steps[n - 1]);
      if InSync(cfg, worlds[n - 1]) {
        StepSyncIff(cfg, worlds[n - 1], steps[n - 1]);
      }
    }
  }

  lemma {:induction false} InitInSync(cfg: Config, w: World, start: real)
    requires Init(cfg, w, start)
    ensures InSync(cfg, w)
  {
  }

  // ----- a stale put does break it

  /** A poll of one event, whatever becomes of the saves. */
  lemma {:induction false} SinglePoll(cfg: Config, w: World, now: real, net: Net)
    requires cfg.batch == 1 && Ready(w.a, now) && w.a.bucket.rate > 0.0 && Refill(w.a.bucket, now).tokens >= 1.0
    requires net.tokenRead && net.queried && net.post == Delivered
    requires Rank(w.index, w.a.cursor) < |w.index| && w.index[Rank(w.index, w.a.cursor)].mappable
    requires w.a.cursor != Key(w.index[Rank(w.index, w.a.cursor)]) && w.a.checkpointLoaded && !w.a.saveFailing
    ensures var d := w.index[Rank(w.index, w.a.cursor)];
      var p1 := SavePlane(w.plane, Key(d), net.save);
      var w' := Next(cfg, w, Poll(now, net));
      && w'.a.cursor == Key(d) && w'.index == w.index && w'.a.phase == w.a.phase
      && w'.a.checkpointLoaded && w'.a.failures == 0 && w'.a.lastPollOk == Some(now) && w'.a.interval == w.a.interval
      && Key(d) in w'.puts && w.puts <= w'.puts
      && w'.a.bucket == Take(w.a.bucket, 1, now)
      && w'.plane.row == (if net.save == Delivered then p1 else SavePlane(p1, Key(d), net.resave)).row
      && w'.a.saveFailing == (net.save != Delivered && net.resave != Delivered)
  {
    var r := Rank(w.index, w.a.cursor);
    var d := w.index[r];
    var page := Page(w.index, w.a.cursor, 1);
    assert page == [d];
    assert Events(page) == [d] by { assert page[..0] == []; assert Events([]) == []; }
    RefillStaysWithinBurst(w.a.bucket, now);
    assert Capacity(w.a, [d], now) == 1;
    hide Events, Page, Rank, Accept, Duplicates, Take;
  }

  /** A run that reaches this state: the save of the first event is delayed, the retry and the save of the
      second event get through, then the delayed one arrives.  The adapter reports `ok`, yet the
      durable cursor is behind the in-memory one. */
  lemma {:induction false} StalePutRun() returns (cfg: Config, worlds: seq<World>, steps: seq<Step>)
    ensures IsRun(cfg, worlds, steps) && Init(cfg, worlds[0], 0.0)
    ensures var w := worlds[|steps|];
      && Synced(w.a) && w.a.phase == Polling && Healthy(w.a, 1.0)
      && w.plane.row.Some? && Before(w.plane.row.value, w.a.cursor)
  {
    hide Page, Events, PollCycle, IngestOnce, Posted, Saved;
    cfg := Config(1.0, 30, 1, false, 0, 15.0);
    var first, second := Doc(5, 1, true), Doc(5, 2, true);
    var w0 := World([first, second], Plane([], None), Boot(cfg, 0.0), {}, {});
    var delayed := Net(true, true, Delivered, LostBefore, Delivered);
    var w2 := w0.(a := w0.a.(checkpointLoaded := true, phase := Polling, phaseSince := 0.0));
    var w3, w4 := TwoPolls(cfg, w2, first, second);
    steps := [Load(true), BeginPolling(0.0), Poll(0.0, delayed), Poll(1.0, FAULT_FREE), LatePut(Key(first))];
    worlds := [w0, Next(cfg, w0, steps[0]), w2, w3, w4, Next(cfg, w4, steps[4])];
  }

  /** The two polls of that run. */
  lemma {:induction false} TwoPolls(cfg: Config, w2: World, first: Doc, second: Doc) returns (w3: World, w4: World)
    requires cfg == Config(1.0, 30, 1, false, 0, 15.0) && first == Doc(5, 1, true) && second == Doc(5, 2, true)
    requires w2.index == [first, second] && w2.plane.row == None
    requires w2.a == Boot(cfg, 0.0).(checkpointLoaded := true, phase := Polling, phaseSince := 0.0)
    ensures var delayed := Net(true, true, Delivered, LostBefore, Delivered);
      && Enabled(cfg, w2, Poll(0.0, delayed)) && w3 == Next(cfg, w2, Poll(0.0, delayed))
      && Enabled(cfg, w3, Poll(1.0, FAULT_FREE)) && w4 == Next(cfg, w3, Poll(1.0, FAULT_FREE))
    ensures w4.a.cursor == Key(second) && w4.plane.row == Some(Key(second)) && Key(first) in w4.puts
    ensures Synced(w4.a) && w4.a.phase == Polling && w4.a.failures == 0 && w4.a.lastPollOk == Some(1.0)
            && w4.a.interval == 15.0
  {
    hide Page, Events, PollCycle, IngestOnce, Posted, Saved;
    var delayed := Net(true, true, Delivered, LostBefore, Delivered);
    RankOfKey(w2.index, 0);
    SinglePoll(cfg, w2, 0.0, delayed);
    w3 := Next(cfg, w2, Poll(0.0, delayed));
    assert w3.a.bucket.tokens == 29.0 && w3.a.bucket.last == 0.0;
    SinglePoll(cfg, w3, 1.0, FAULT_FREE);
    w4 := Next(cfg, w3, Poll(1.0, FAULT_FREE));
  }

  // ----- health over runs

  /** The failed polls since the last completed one, or since the process started. */
  function Streak(cfg: Config, worlds: seq<World>, steps: seq<Step>, n: nat): nat
    requires IsRun(cfg, worlds, steps) && n <= |steps|
  {
    if n == 0 then 0
    else
      var w, s := worlds[n - 1], steps[n - 1];
      assert Enabled(cfg, w, s);
      match s
      case Restart(_) => 0
      case Poll(now, net) =>
        if Completes(cfg, w, now, net) then 0 else Streak(cfg, worlds, steps, n - 1) + 1
      case _ => Streak(cfg, worlds, steps, n - 1)
  }

  /** When the last poll completed since the process started. */
  function LastCompleted(cfg: Config, worlds: seq<World>, steps: seq<Step>, n: nat): Option<real>
    requires IsRun(cfg, worlds, steps) && n <= |steps|
  {
    if n == 0 then None
    else
      var w, s := worlds[n - 1], steps[n - 1];
      assert Enabled(cfg, w, s);
      match s
      case Restart(_) => None
      case Poll(now, net) =>
        if Completes(cfg, w, now, net) then Some(now) else LastCompleted(cfg, worlds, steps, n - 1)
      case _ => LastCompleted(cfg, worlds, steps, n - 1)
  }

  /** A poll completes unless the token, the query or a needed post fails; an empty page completes. */
  predicate Completes(cfg: Config, w: World, now: real, net: Net)
    requires Ready(w.a, now)
  {
    net.tokenRead && net.queried &&
    (net.post == Delivered || Capacity(w.a, Events(Page(w.index, w.a.cursor, cfg.batch)), now) == 0)
  }

  lemma {:induction false} CompletesIffResult(cfg: Config, w: World, now: real, net: Net)
    requires Ready(w.a, now)
    ensures var o := PollCycle(cfg, w.a, w.plane, w.index, now, net);
      && (Completes(cfg, w, now, net) <==> o.result.Some?)
      && o.a.failures == (if Completes(cfg, w, now, net) then 0 else w.a.failures + 1)
      && o.a.lastPollOk == (if Completes(cfg, w, now, net) then Some(now) else w.a.lastPollOk)
  {
  }

  lemma {:induction false} HealthTracksPolls(cfg: Config, worlds: seq<World>, steps: seq<Step>, start: real, n: nat)
    requires IsRun(cfg, worlds, steps) && Init(cfg, worlds[0], start) && n <= |steps|
    ensures worlds[n].a.failures == Streak(cfg, worlds, steps, n)
    ensures worlds[n].a.lastPollOk == LastCompleted(cfg, worlds, steps, n)
  {
    hide PollCycle, Completes;
    if n > 0 {
      HealthTracksPolls(cfg, worlds, steps, start, n - 1);
      var w, s := worlds[n - 1], steps[n - 1];
      assert Enabled(cfg, w, s) && worlds[n - 1 + 1] == Next(cfg, w, s);
      if s.Poll? {
        CompletesIffResult(cfg, w, s.now, s.net);
      }
    }
  }

  /** What `ok` takes, in the readings of the process: it is disabled, or it has not stopped, failed neither at
      polling nor at saving, has a checkpoint if it polls, and its last completed poll, or failing that the start
      of its phase, is no older than two minutes or three intervals, whichever is longer. */
  lemma {:induction false} HealthyIff(a: State, now: real)
    ensures Healthy(a, now)
       <==> || a.phase == Disabled
            || (&& a.phase != Stopped && a.failures == 0 && !a.saveFailing
                && (a.phase == Polling ==> a.checkpointLoaded || a.checkpointSaved)
                && var since := now - (match a.lastPollOk case Some(t) => t case None => a.phaseSince);
                   since <= 120.0 || since <= 3.0 * a.interval)
  {
  }

  /** An adapter that polls and reports `ok`: no poll has failed since the last completed one, that one (or
      the start of polling) is no older than two minutes or three intervals, and, unless a late save broke the sync, the
      durable cursor is at or past the in-memory one or that one has not moved since start. */
  lemma {:induction false} OkMeansFlowing(cfg: Config, worlds: seq<World>, steps: seq<Step>, start: real, n: nat,
      now: real)
    requires IsRun(cfg, worlds, steps) && Init(cfg, worlds[0], start) && n <= |steps|
    requires worlds[n].a.phase == Polling && Healthy(worlds[n].a, now)
    ensures Streak(cfg, worlds, steps, n) == 0
    ensures var last := LastCompleted(cfg, worlds, steps, n);
      var since := now - (if last.Some? then last.value else worlds[n].a.phaseSince);
      since <= 120.0 || since <= 3.0 * worlds[n].a.interval
    ensures (forall i :: 0 <= i < n ==> !Breaks(cfg, worlds[i], steps[i]))
            ==> Durable(cfg, worlds[n].a, worlds[n].plane.row)
  {
    HealthTracksPolls(cfg, worlds, steps, start, n);
    SyncedMeansDurable(cfg, worlds, steps, start, n);
    hide Streak, LastCompleted, IsRun, Init;
  }
}
