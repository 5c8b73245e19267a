/**
 A restart with something accepted ahead of the checkpoint: a run in shed mode without a failed
 post in which `alerts_dropped_rate_limit` counts an event that was accepted
 (src/soctalk_adapter/main.py: `_load_checkpoint`, `_save_checkpoint`, `_ingest_once`).
 */
module ShedRestart {
  import opened Wrappers
  import opened Keyset
  import opened ControlPlanes
  import opened TokenBuckets
  import opened AdapterSpec
  import opened IngestProtocol
  import opened IngestProgress
  import opened CheckpointSync
  import opened ShedMode

  /** A poll that sends everything it should, but neither of whose saves arrives. */
  const SAVES_LOST := Net(true, true, Delivered, LostBefore, LostBefore)

  lemma {:induction false} UnsavedRow(cfg: Config, w: World, now: real)
    requires Ready(w.a, now)
    ensures Next(cfg, w, Poll(now, SAVES_LOST)).plane.row == w.plane.row
  {
    hide Page, Events, Accept, Duplicates, Take, ResultOf, Capacity, NextCursor;
  }

  lemma {:induction false} SavedCursor(cfg: Config, w: World, now: real, net: Net, d: Doc)
    requires cfg.shed && Ready(w.a, now) && net.tokenRead && net.queried && net.post == Delivered
    requires PageEvents(cfg, w) == [d]
    ensures var w' := Next(cfg, w, Poll(now, net)); w'.a.cursor == Key(d) && w'.puts <= w.puts + {Key(d)}
  {
    ShedIngest(cfg, w.a, w.plane, w.index, now, net);
    CompletesIffResult(cfg, w, now, net);
    hide Page, Events, Accept, Capacity, IngestOnce, Posted;
  }

  lemma {:induction false} UnsavedPoll(cfg: Config, w: World, now: real, d: Doc)
    requires cfg.shed && Ready(w.a, now) && w.a.bucket.rate > 0.0 && Refill(w.a.bucket, now).tokens >= 1.0
    requires PageEvents(cfg, w) == [d] && d.id !in w.plane.log
    ensures var w' := Next(cfg, w, Poll(now, SAVES_LOST));
      && w'.plane.row == w.plane.row && w'.plane.log == w.plane.log + [d.id] && w'.index == w.index
      && w'.a.cursor == Key(d) && w'.a.phase == w.a.phase && w'.a.bucket == Take(w.a.bucket, 1, now)
      && w'.puts <= w.puts + {Key(d)}
  {
    UnsavedRow(cfg, w, now);
    SavedCursor(cfg, w, now, SAVES_LOST, d);
    var m := ShedPoll(cfg, w, now, SAVES_LOST);
    CompletesIffResult(cfg, w, now, SAVES_LOST);
    PollSaves(cfg, w, now, SAVES_LOST);
    PollBucket(cfg, w, now, SAVES_LOST);
    assert m == 1 && Accept(w.plane.log, []) == w.plane.log;
    assert [d][..1] == [d] && [d][..0] == [];
    hide PollCycle, Page, Events, Take, Refill, Capacity, Saved, Posted;
  }

  /** The poll after the restart: one token for two events that are both accepted already. */
  lemma {:induction false} RedoingPoll(cfg: Config, w: World, now: real, d: Doc, e: Doc)
    requires cfg.shed && Ready(w.a, now) && Capacity(w.a, [d, e], now) == 1
    requires Sorted(w.index) && PageEvents(cfg, w) == [d, e] && w.plane.log == [d.id, e.id]
    ensures var w' := Next(cfg, w, Poll(now, FAULT_FREE));
      && w'.plane.log == w.plane.log && w'.index == w.index && w'.a.cursor == Key(e)
      && w'.a.dropped == w.a.dropped + 1 && ShedsAccepted(cfg, w, Poll(now, FAULT_FREE))
  {
    var m := ShedPoll(cfg, w, now, FAULT_FREE);
    CompletesIffResult(cfg, w, now, FAULT_FREE);
    assert [d, e][..1] == [d] && [d, e][1..] == [e] && [d][..0] == [];
    assert Accept(w.plane.log, []) == w.plane.log;
    hide PollCycle, Page, Events, Capacity, Saved, Posted;
    assert e in [d, e][1..];
  }

  lemma {:induction false} EventsOfTwo(d: Doc, e: Doc)
    requires d.mappable && e.mappable
    ensures Events([d]) == [d] && Events([e]) == [e] && Events([d, e]) == [d, e]
  {
    assert [d][..0] == [] && [e][..0] == [] && [d, e][..1] == [d];
    assert Events([]) == [] && Events([d]) == [d];
  }

  lemma {:induction false} PagesOfTwo(d: Doc, e: Doc, c: Cursor)
    requires Before(Key(d), Key(e))
    ensures Past(d, c) ==> Page([d], c, 2) == [d] && Page([d, e], c, 2) == [d, e]
    ensures c == Key(d) ==> Page([d, e], c, 2) == [e]
  {
    if c == Key(d) {
      RankOfKey([d, e], 0);
    }
    if Past(d, c) {
      assert Rank([d], c) == Rank([d, e], c) == 0;
    }
    hide Rank, Past;
  }

  lemma {:induction false} TwoDocs(d: Doc, e: Doc, c: Cursor)
    requires d.mappable && e.mappable && Before(Key(d), Key(e))
    ensures Past(d, c) ==> Page([d], c, 2) == [d]
    ensures c == Key(d) ==> Page([d, e], c, 2) == [e]
    ensures Past(d, c) ==> Page([d, e], c, 2) == [d, e]
    ensures Events([d]) == [d] && Events([e]) == [e] && Events([d, e]) == [d, e]
  {
    hide Page, Events, Past;
    EventsOfTwo(d, e);
    PagesOfTwo(d, e, c);
  }

  lemma {:induction false} RunsJoin(cfg: Config, first: seq<World>, steps: seq<Step>, second: seq<World>,
      more: seq<Step>)
    requires IsRun(cfg, first, steps) && IsRun(cfg, second, more) && first[|steps|] == second[0]
    ensures IsRun(cfg, first + second[1..], steps + more)
  {
    hide Next;
    var worlds, all := first + second[1..], steps + more;
    forall i | 0 <= i < |all| ensures Enabled(cfg, worlds[i], all[i]) && worlds[i + 1] == Next(cfg, worlds[i], all[i]) {
      if i >= |steps| {
        var k := i - |steps|;
        assert worlds[i] == second[k] && worlds[i + 1] == second[k + 1] && all[i] == more[k];
      }
    }
  }

  lemma {:induction false} UnsavedPolls(cfg: Config, w: World, d: Doc, e: Doc) returns (worlds: seq<World>)
    requires cfg == Config(1.0, 1, 2, true, 0, 15.0) && d == Doc(5, 1, true) && e == Doc(6, 2, true)
    requires w == World([d], Plane([], None), Boot(cfg, 0.0).(checkpointLoaded := true, phase := Polling), {}, {})
    ensures |worlds| == 4 && worlds[0] == w && worlds[1].index == [d] && worlds[2].index == worlds[3].index == [d, e]
    ensures IsRun(cfg, worlds, [Poll(0.0, SAVES_LOST), Grow([d, e]), Poll(1.0, SAVES_LOST)])
    ensures worlds[3].plane == Plane([1, 2], None)
  {
    hide Page, Events, PollCycle, Posted, Saved;
    TwoDocs(d, e, w.a.cursor);
    UnsavedPoll(cfg, w, 0.0, d);
    var w1 := Next(cfg, w, Poll(0.0, SAVES_LOST));
    var w2 := Next(cfg, w1, Grow([d, e]));
    TwoDocs(d, e, w2.a.cursor);
    assert w2.a.bucket.tokens == 0.0 && w2.a.bucket.last == 0.0;
    UnsavedPoll(cfg, w2, 1.0, e);
    worlds := [w, w1, w2, Next(cfg, w2, Poll(1.0, SAVES_LOST))];
  }

  /** The first process of the run below. */
  lemma {:induction false} UnsavedProcess(cfg: Config, d: Doc, e: Doc) returns (worlds: seq<World>, steps: seq<Step>)
    requires cfg == Config(1.0, 1, 2, true, 0, 15.0) && d == Doc(5, 1, true) && e == Doc(6, 2, true)
    ensures |worlds| == 6 && |steps| == 5 && IsRun(cfg, worlds, steps) && Init(cfg, worlds[0], 0.0)
    ensures PostsSucceed(steps)
    ensures forall i :: 0 <= i < 6 ==> worlds[i].index == [d] || worlds[i].index == [d, e]
    ensures worlds[5].index == [d, e] && worlds[5].plane == Plane([1, 2], None)
  {
    hide PollCycle, Posted, Saved;
    var w0 := World([d], Plane([], None), Boot(cfg, 0.0), {}, {});
    var w1 := Next(cfg, w0, Load(true));
    var w2 := Next(cfg, w1, BeginPolling(0.0));
    var rest := UnsavedPolls(cfg, w2, d, e);
    var start := [w0, w1, w2];
    assert IsRun(cfg, start, [Load(true), BeginPolling(0.0)]);
    var polls := [Poll(0.0, SAVES_LOST), Grow([d, e]), Poll(1.0, SAVES_LOST)];
    hide IsRun, Init;
    RunsJoin(cfg, start, [Load(true), BeginPolling(0.0)], rest, polls);
    worlds := start + rest[1..];
    steps := [Load(true), BeginPolling(0.0)] + polls;
    assert Init(cfg, w0, 0.0) by {
      FirstWorld(cfg, w0, d);
    }
    assert IsRun(cfg, worlds, steps) && worlds[0] == w0;
  }

  lemma {:induction false} FirstWorld(cfg: Config, w: World, d: Doc)
    requires cfg.initialTs <= d.ts && w == World([d], Plane([], None), Boot(cfg, 0.0), {}, {})
    ensures Init(cfg, w, 0.0)
  {
  }

  /** The second one. */
  lemma {:induction false} RedoingProcess(cfg: Config, w: World, d: Doc, e: Doc) returns (worlds: seq<World>)
    requires cfg == Config(1.0, 1, 2, true, 0, 15.0) && d == Doc(5, 1, true) && e == Doc(6, 2, true)
    requires w.index == [d, e] && w.plane == Plane([1, 2], None)
    ensures |worlds| == 5 && worlds[0] == w && forall i :: 0 <= i < 5 ==> worlds[i].index == [d, e]
    ensures IsRun(cfg, worlds, [Restart(2.0), Load(true), BeginPolling(2.0), Poll(2.0, FAULT_FREE)])
    ensures ShedsAccepted(cfg, worlds[3], Poll(2.0, FAULT_FREE)) && worlds[4].a.dropped == worlds[3].a.dropped + 1
    ensures worlds[3].plane.log == worlds[4].plane.log == [1, 2]
  {
    hide Page, Events, PollCycle, Posted, Saved, ShedsAccepted;
    var w1 := Next(cfg, w, Restart(2.0));
    var w2 := Next(cfg, w1, Load(true));
    var w3 := Next(cfg, w2, BeginPolling(2.0));
    TwoDocs(d, e, w3.a.cursor);
    assert Capacity(w3.a, [d, e], 2.0) == 1;
    RedoingPoll(cfg, w3, 2.0, d, e);
    worlds := [w, w1, w2, w3, Next(cfg, w3, Poll(2.0, FAULT_FREE))];
  }

  lemma {:induction false} NothingLost(w: World, d: Doc, e: Doc)
    requires w.index == [d, e] && w.plane.log == [d.id, e.id]
    ensures Lost(w) == {}
  {
    hide Past;
  }

  /** A run without a failed post whose counter is not the loss: the saves of the first process are all lost, so
      the next one polls both events again.  With one token it sends the first, a duplicate, and books the
      second as dropped although it was accepted. */
  lemma {:induction false} RestartRedoes() returns (cfg: Config, worlds: seq<World>, steps: seq<Step>)
    ensures cfg.shed && |steps| == 9 && IsRun(cfg, worlds, steps) && Init(cfg, worlds[0], 0.0)
    ensures PostsSucceed(steps) && DistinctAlways(worlds) && Started(steps[8..])
    ensures steps[8].Poll? && steps[8].net == FAULT_FREE && ShedsAccepted(cfg, worlds[8], steps[8])
    ensures worlds[9].a.dropped == worlds[8].a.dropped + 1 && Lost(worlds[9]) == Lost(worlds[8]) == {}
  {
    hide Page, Events, PollCycle, Next, Enabled, IsRun, Init, Past, Lost, ShedsAccepted;
    cfg := Config(1.0, 1, 2, true, 0, 15.0);
    var d, e := Doc(5, 1, true), Doc(6, 2, true);
    var first, before := UnsavedProcess(cfg, d, e);
    var second := RedoingProcess(cfg, first[5], d, e);
    NothingLost(second[3], d, e);
    NothingLost(second[4], d, e);
    var again := [Restart(2.0), Load(true), BeginPolling(2.0), Poll(2.0, FAULT_FREE)];
    RunsJoin(cfg, first, before, second, again);
    worlds := first + second[1..];
    steps := before + again;
    assert steps[8] == again[3] && worlds[8] == second[3] && worlds[9] == second[4];
  }
}
