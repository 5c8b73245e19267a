/**
 Where a process resumes, what it posts from there on, and when it saves
 (src/soctalk_adapter/main.py: `_load_checkpoint`, `_save_checkpoint`, `_poll_cycle`), in both
 rate-limit modes.
 */
module CheckpointResume {
  import opened Wrappers
  import opened Keyset
  import opened ControlPlanes
  import opened TokenBuckets
  import opened AdapterSpec
  import opened IngestProtocol
  import opened IngestProgress
  import opened CheckpointSync
  import opened ShedMode

  // ----- where a process resumes

  /** A restarted process that loads stands at the stored cursor, or at the start if none is stored; one whose
      load fails stands at the start and does not count as loaded. */
  lemma {:induction false} RestartResumes(cfg: Config, w: World, now: real, ok: bool)
    ensures var v := Next(cfg, w, Restart(now));
      var w' := Next(cfg, v, Load(ok));
      && Enabled(cfg, w, Restart(now)) && Enabled(cfg, v, Load(ok))
      && w'.a.cursor == (if ok && w.plane.row.Some? then w.plane.row.value else Cursor(cfg.initialTs, None))
      && w'.a.checkpointLoaded == ok && !w'.a.checkpointSaved && !w'.a.saveFailing
      && w'.plane == w.plane && w'.index == w.index && w'.posts == w.posts && w'.puts == w.puts
    ensures Next(cfg, w, Load(false)) == w
  {
  }

  // ----- one poll

  /** A call accepts the first m events of its page and leaves the cursor at the k-th, or where it was. */
  ghost predicate MovesTo(a: State, p: Plane, events: seq<Doc>, net: Net, m: nat, k: nat, o: Outcome) {
    && m <= |events| && k <= |events| && (net.post != LostAfter ==> m <= k)
    && o.p.log == Accept(p.log, events[..m])
    && o.a.cursor == (if k == 0 then a.cursor else Key(events[k - 1]))
    && o.a.checkpointLoaded == a.checkpointLoaded && o.a.phase == a.phase
    && (o.a.duplicate == a.duplicate || o.a.duplicate == a.duplicate + Duplicates(p.log, events[..m]))
  }

  /** And the durable cursor takes the new one, if the save that goes with it reaches the control plane. */
  ghost predicate SavesTo(a: State, p: Plane, net: Net, k: nat, o: Outcome) {
    && (k == 0 ==> o.p.row == p.row || o.p.row == Some(Merge(p.row, a.cursor)))
    && (k > 0 && net.save != LostBefore ==>
          || o.p.row == Some(Merge(p.row, o.a.cursor))
          || o.p.row == Some(Merge(Some(Merge(p.row, o.a.cursor)), o.a.cursor)))
  }

  /** How far the cursor goes. */
  function Reached(cfg: Config, n: nat, m: nat): nat {
    if cfg.shed && m < n then n else m
  }

  lemma {:induction false} AdvanceReaches(cfg: Config, a: State, p: Plane, page: seq<Doc>, m: nat, net: Net)
    requires m <= |Events(page)|
    ensures var o := Advance(cfg, a, p, page, m, net.save);
      var k := Reached(cfg, |Events(page)|, m);
      MovesTo(a, p, Events(page), net, m, k, o)
      && (k == 0 ==> o.p.row == p.row)
      && (k > 0 && Key(Events(page)[k - 1]) != a.cursor && net.save != LostBefore
          ==> o.p.row == Some(Merge(p.row, o.a.cursor)))
  {
    hide Events, Accept, Duplicates, ResultOf, Key;
    SaveMoves(p.(log := Accept(p.log, Events(page)[..m])), NextCursor(cfg, a.cursor, Events(page), m), net.save);
  }

  lemma {:induction false} IngestReaches(cfg: Config, a: State, p: Plane, ix: seq<Doc>, now: real, net: Net)
      returns (m: nat, k: nat)
    requires Ready(a, now) && Sorted(ix)
    ensures var o := IngestOnce(cfg, a, p, ix, now, net);
      var events := Events(Page(ix, a.cursor, cfg.batch));
      && MovesTo(a, p, events, net, m, k, o)
      && (k == 0 ==> o.p.row == p.row)
      && (k > 0 && net.save != LostBefore ==> o.p.row == Some(Merge(p.row, o.a.cursor)))
  {
    var page := Page(ix, a.cursor, cfg.batch);
    var events := Events(page);
    AcceptNothing(p.log, events);
    m, k := 0, 0;
    if net.queried && events != [] {
      var n := Capacity(a, events, now);
      AdvanceReaches(cfg, Cut(cfg, a, page, now), p, page, n, net);
      if n > 0 && net.post == LostAfter {
        m := n;
      } else if !(n > 0 && net.post == LostBefore) {
        m, k := n, Reached(cfg, |events|, n);
        if k > 0 {
          ForwardingAdvances(ix, a.cursor, cfg.batch, k);
          NotBeforeItself(a.cursor);
        }
      }
    }
    hide Events, Accept, Duplicates, Page, Advance, Take, Capacity, Before, Sorted;
  }

  lemma {:induction false} PollReaches(cfg: Config, w: World, now: real, net: Net) returns (m: nat, k: nat)
    requires Ready(w.a, now) && Sorted(w.index)
    ensures var o := PollCycle(cfg, w.a, w.plane, w.index, now, net);
      MovesTo(w.a, w.plane, PageEvents(cfg, w), net, m, k, o) && SavesTo(w.a, w.plane, net, k, o)
    ensures forall c :: c in Saved(cfg, w, now, net) ==> c == PollCycle(cfg, w.a, w.plane, w.index, now, net).a.cursor
  {
    AcceptNothing(w.plane.log, PageEvents(cfg, w));
    hide Events, Accept, Duplicates, Page, IngestOnce, Merge, Sorted;
    m, k := IngestReaches(cfg, w.a, w.plane, w.index, now, net);
    if !net.tokenRead {
      m, k := 0, 0;
    }
  }

  lemma {:induction false} AtMostTransitive(a: Cursor, b: Cursor, c: Cursor)
    requires AtMost(a, b) && AtMost(b, c)
    ensures AtMost(a, c)
  {
  }

  /** A poll never moves the cursor back, and what it posts lies past the cursor. */
  lemma {:induction false} PollLooksAhead(cfg: Config, w: World, now: real, net: Net)
    requires Enabled(cfg, w, Poll(now, net)) && Sorted(w.index)
    ensures var w' := Next(cfg, w, Poll(now, net));
      && AtMost(w.a.cursor, w'.a.cursor) && w'.a.checkpointLoaded == w.a.checkpointLoaded
      && w'.a.phase == w.a.phase && w'.index == w.index
      && forall batch, d :: batch in w'.posts && batch !in w.posts && d in batch
           ==> d in w.index && d.mappable && Past(d, w.a.cursor)
  {
    var m, k := PollReaches(cfg, w, now, net);
    var events := PageEvents(cfg, w);
    hide PollCycle, Saved, Page, Events, Accept, Duplicates, Merge, Past, Before, Sorted;
    if k > 0 {
      ForwardingAdvances(w.index, w.a.cursor, cfg.batch, k);
    }
    var n := Capacity(w.a, events, now);
    PageIsAhead(w.index, w.a.cursor, cfg.batch, n);
    PageIsFromIndex(w.index, w.a.cursor, cfg.batch, n);
    hide Capacity;
    assert Posted(cfg, w, now, net) <= {events[..n]};
  }

  // ----- a process that loaded

  lemma {:induction false} StaysInScope(cfg: Config, worlds: seq<World>, steps: seq<Step>, n: nat)
    requires IsRun(cfg, worlds, steps) && InScope(cfg, worlds[0].index) && n <= |steps|
    ensures InScope(cfg, worlds[n].index)
  {
    hide InScope, PollCycle;
    if n > 0 {
      StaysInScope(cfg, worlds, steps, n - 1);
      assert Enabled(cfg, worlds[n - 1], steps[n - 1]) && worlds[n - 1 + 1] == Next(cfg, worlds[n - 1], steps[n - 1]);
    }
  }

  /** Loaded, and never again behind c. */
  ghost predicate Beyond(w: World, c: Cursor, posts: set<seq<Doc>>) {
    && w.a.checkpointLoaded && AtMost(c, w.a.cursor)
    && forall batch, d :: batch in w.posts && batch !in posts && d in batch ==> Past(d, c)
  }

  lemma {:induction false} PastAll(c: Cursor, c': Cursor, d: Doc)
    requires AtMost(c, c') && Past(d, c')
    ensures Past(d, c)
  {
  }

  lemma {:induction false} StepStaysBeyond(cfg: Config, w: World, s: Step, c: Cursor, posts: set<seq<Doc>>)
    requires Enabled(cfg, w, s) && InScope(cfg, w.index) && !s.Restart? && Beyond(w, c, posts)
    ensures Beyond(Next(cfg, w, s), c, posts)
  {
    if s.Poll? {
      PollLooksAhead(cfg, w, s.now, s.net);
      hide PollCycle, Posted, Saved, Past, Before, InScope;
      var w' := Next(cfg, w, s);
      AtMostTransitive(c, w.a.cursor, w'.a.cursor);
      forall batch, d | batch in w'.posts && batch !in posts && d in batch ensures Past(d, c) {
        if batch !in w.posts {
          PastAll(c, w.a.cursor, d);
        }
      }
    }
    hide PollCycle;
  }

  /** From the load of a stored cursor until the next restart, whatever else fails: the process stays at or past
      that cursor and posts nothing but events past it. */
  lemma {:induction false} LoadedPostsAhead(cfg: Config, worlds: seq<World>, steps: seq<Step>, i: nat, n: nat,
      c: Cursor)
    requires IsRun(cfg, worlds, steps) && InScope(cfg, worlds[0].index) && i < n <= |steps|
    requires steps[i] == Load(true) && worlds[i].plane.row == Some(c)
    requires forall k :: i < k < n ==> !steps[k].Restart?
    ensures worlds[i + 1].a.cursor == c && worlds[n].a.checkpointLoaded && AtMost(c, worlds[n].a.cursor)
    ensures forall batch, d :: batch in worlds[n].posts && batch !in worlds[i].posts && d in batch ==> Past(d, c)
  {
    assert Enabled(cfg, worlds[i], steps[i]) && worlds[i + 1] == Next(cfg, worlds[i], steps[i]);
    LoadedStaysBeyond(cfg, worlds, steps, i, n, c);
  }

  lemma {:induction false} LoadedStaysBeyond(cfg: Config, worlds: seq<World>, steps: seq<Step>, i: nat, n: nat,
      c: Cursor)
    requires IsRun(cfg, worlds, steps) && InScope(cfg, worlds[0].index) && i < n <= |steps|
    requires Beyond(worlds[i + 1], c, worlds[i].posts)
    requires forall k :: i < k < n ==> !steps[k].Restart?
    ensures Beyond(worlds[n], c, worlds[i].posts)
  {
    hide Next, Enabled, Beyond, InScope;
    if n > i + 1 {
      LoadedStaysBeyond(cfg, worlds, steps, i, n - 1, c);
      StaysInScope(cfg, worlds, steps, n - 1);
      StepStaysBeyond(cfg, worlds[n - 1], steps[n - 1], c, worlds[i].posts);
    }
  }

  // ----- when nothing is posted twice

  /** Where a restart would resume. */
  function ResumesAt(cfg: Config, w: World): Cursor {
    if w.plane.row.Some? then w.plane.row.value else Cursor(cfg.initialTs, None)
  }

  /** Nothing comes between the adapter and its checkpoint: a process polls only once it has loaded; no post
      is accepted without the adapter learning of it; no save is lost on its way; and what arrives late
      neither brings new events nor moves the durable cursor back. */
  ghost predicate Undisturbed(w: World, s: Step) {
    match s
    case BeginPolling(_) => w.a.checkpointLoaded
    case Poll(_, net) => net.post != LostAfter && net.save != LostBefore
    case LatePost(events) => forall d :: d in events ==> d.id in w.plane.log
    case LatePut(c) => !(w.plane.row.Some? && c.ts == w.plane.row.value.ts && Before(c, w.plane.row.value))
    case _ => true
  }

  /** Every accepted id is that of an event a restart would not look at again. */
  ghost predicate AllBehind(w: World, c: Cursor) {
    forall id :: id in w.plane.log ==> exists d :: IsBehind(w.index, c, d) && d.id == id
  }

  predicate IsBehind(ix: seq<Doc>, c: Cursor, d: Doc) {
    d in ix && d.mappable && !Past(d, c)
  }

  ghost predicate Unrepeated(cfg: Config, w: World) {
    && InScope(cfg, w.index) && w.a.duplicate == 0
    && (w.a.phase == Polling ==> w.a.checkpointLoaded)
    && w.a.cursor == (if w.a.checkpointLoaded then ResumesAt(cfg, w) else StartCursor(cfg))
    && AtMost(StartCursor(cfg), ResumesAt(cfg, w))
    && (forall c :: c in w.puts ==> AtMost(StartCursor(cfg), c) && AtMost(c, ResumesAt(cfg, w)))
    && AllBehind(w, ResumesAt(cfg, w))
  }

  lemma {:induction false} BehindIsNotAhead(w: World, c: Cursor, d: Doc)
    requires DistinctIds(w.index) && AllBehind(w, c) && d in w.index && Past(d, c)
    ensures d.id !in w.plane.log
  {
    hide Past;
  }

  lemma {:induction false} FreshEventsNoDuplicate(log: seq<int>, events: seq<Doc>)
    requires forall i :: 0 <= i < |events| ==> events[i].id !in log
    requires forall i, j :: 0 <= i < j < |events| ==> events[i].id != events[j].id
    ensures Duplicates(log, events) == 0
  {
    if events != [] {
      var init, last := events[..|events| - 1], events[|events| - 1];
      FreshEventsNoDuplicate(log, init);
      AcceptMembers(log, init, last.id);
    }
  }

  lemma {:induction false} KnownEventsChangeNothing(log: seq<int>, events: seq<Doc>)
    requires forall d :: d in events ==> d.id in log
    ensures Accept(log, events) == log
  {
    if events != [] {
      assert events[|events| - 1] in events;
      KnownEventsChangeNothing(log, events[..|events| - 1]);
    }
  }

  lemma {:induction false} MergeForward(row: Option<Cursor>, c: Cursor)
    requires row.Some? ==> AtMost(row.value, c)
    ensures Merge(row, c) == c && Merge(Some(Merge(row, c)), c) == c
  {
  }

  /** What the first m events of a page add to the log lies behind the k-th. */
  lemma {:induction false} SentIsBehind(cfg: Config, w: World, w': World, m: nat, k: nat)
    requires Sorted(w.index) && m <= k <= |PageEvents(cfg, w)| && w'.index == w.index
    requires w'.plane.log == Accept(w.plane.log, PageEvents(cfg, w)[..m]) && AllBehind(w, w.a.cursor)
    ensures AllBehind(w', if k == 0 then w.a.cursor else Key(PageEvents(cfg, w)[k - 1]))
  {
    var events := PageEvents(cfg, w);
    var c := if k == 0 then w.a.cursor else Key(events[k - 1]);
    if k > 0 {
      ForwardingAdvances(w.index, w.a.cursor, cfg.batch, k);
    }
    hide Page, Events, Past, Before, Accept, Sorted, Key;
    forall id | id in w'.plane.log ensures exists d :: IsBehind(w'.index, c, d) && d.id == id {
      AcceptMembers(w.plane.log, events[..m], id);
      if id in w.plane.log {
        var d :| IsBehind(w.index, w.a.cursor, d) && d.id == id;
        if k > 0 {
          NotPastLater(w.a.cursor, c, d);
        }
        assert IsBehind(w'.index, c, d);
      } else {
        var d :| d in events[..m] && d.id == id;
        assert d in events[..k];
        PassedEvents(w.index, w.a.cursor, cfg.batch, k, d);
        assert IsBehind(w'.index, c, d);
      }
    }
  }

  lemma {:induction false} PageIsFresh(cfg: Config, w: World, m: nat)
    requires InScope(cfg, w.index) && DistinctIds(w.index) && AllBehind(w, w.a.cursor) && m <= |PageEvents(cfg, w)|
    ensures forall d :: d in PageEvents(cfg, w)[..m] ==> d.id !in w.plane.log
    ensures Duplicates(w.plane.log, PageEvents(cfg, w)[..m]) == 0
  {
    var events := PageEvents(cfg, w);
    PageIsAhead(w.index, w.a.cursor, cfg.batch, m);
    EventsDistinct(w.index, w.a.cursor, cfg.batch);
    hide Page, Events, Past, AllBehind, Duplicates;
    forall d | d in events[..m] ensures d.id !in w.plane.log {
      BehindIsNotAhead(w, w.a.cursor, d);
    }
    assert forall d :: d in events ==> d in w.index;
    forall i, j | 0 <= i < j < m ensures events[..m][i].id != events[..m][j].id {
      assert events[i] in events && events[j] in events && events[i] != events[j];
    }
    FreshEventsNoDuplicate(w.plane.log, events[..m]);
  }

  lemma {:induction false} PollUnrepeated(cfg: Config, w: World, now: real, net: Net)
    requires Enabled(cfg, w, Poll(now, net)) && Unrepeated(cfg, w) && DistinctIds(w.index)
    requires Undisturbed(w, Poll(now, net))
    ensures Unrepeated(cfg, Next(cfg, w, Poll(now, net)))
  {
    var w' := Next(cfg, w, Poll(now, net));
    var m, k := PollReaches(cfg, w, now, net);
    var c := w.a.cursor;
    PollLooksAhead(cfg, w, now, net);
    hide PollCycle, Saved, Posted, Page, Events, Accept, Duplicates, AllBehind, InScope, DistinctIds;
    PageIsFresh(cfg, w, m);
    assert Sorted(w.index) by { assert InScope(cfg, w.index); SortedInScope(cfg, w.index); }
    SentIsBehind(cfg, w, w', m, k);
    MergeForward(w.plane.row, w'.a.cursor);
    MergeForward(w.plane.row, c);
    hide Merge, Past;
    assert ResumesAt(cfg, w') == w'.a.cursor;
    AtMostTransitive(StartCursor(cfg), c, w'.a.cursor);
    forall d | d in w'.puts ensures AtMost(StartCursor(cfg), d) && AtMost(d, ResumesAt(cfg, w')) {
      if d in w.puts {
        AtMostTransitive(d, c, w'.a.cursor);
      }
    }
  }

  lemma {:induction false} SortedInScope(cfg: Config, ix: seq<Doc>)
    requires InScope(cfg, ix)
    ensures Sorted(ix)
  {
  }

  lemma {:induction false} GrowthKeepsBehind(w: World, ix: seq<Doc>, c: Cursor)
    requires AllBehind(w, c) && forall d :: d in w.index ==> d in ix
    ensures AllBehind(w.(index := ix), c)
  {
    hide Past;
    forall id | id in w.plane.log ensures exists d :: IsBehind(ix, c, d) && d.id == id {
      var d :| IsBehind(w.index, c, d) && d.id == id;
      assert IsBehind(ix, c, d);
    }
  }

  lemma {:induction false} LatePutUnrepeated(cfg: Config, w: World, c: Cursor)
    requires Enabled(cfg, w, LatePut(c)) && Unrepeated(cfg, w) && Undisturbed(w, LatePut(c))
    ensures Unrepeated(cfg, Next(cfg, w, LatePut(c)))
  {
    hide InScope, AllBehind;
    assert ResumesAt(cfg, Next(cfg, w, LatePut(c))) == ResumesAt(cfg, w);
    SamePlaneBehind(w, Next(cfg, w, LatePut(c)), ResumesAt(cfg, w));
  }

  lemma {:induction false} SamePlaneBehind(w: World, w': World, c: Cursor)
    requires AllBehind(w, c) && w'.index == w.index && w'.plane.log == w.plane.log
    ensures AllBehind(w', c)
  {
    hide IsBehind;
  }

  lemma {:induction false} StepUnrepeated(cfg: Config, w: World, s: Step)
    requires Enabled(cfg, w, s) && Unrepeated(cfg, w) && DistinctIds(w.index) && Undisturbed(w, s)
    ensures Unrepeated(cfg, Next(cfg, w, s))
  {
    match s
    case Poll(now, net) => PollUnrepeated(cfg, w, now, net);
    case LatePut(c) => LatePutUnrepeated(cfg, w, c);
    case Grow(ix) =>
      GrowthKeepsBehind(w, ix, ResumesAt(cfg, w));
      hide AllBehind, Past;
    case LatePost(events) =>
      KnownEventsChangeNothing(w.plane.log, events);
      SamePlaneBehind(w, Next(cfg, w, s), ResumesAt(cfg, w));
      hide AllBehind, Accept, InScope;
    case _ =>
      SamePlaneBehind(w, Next(cfg, w, s), ResumesAt(cfg, w));
      hide AllBehind, InScope;
  }

  /** In a run from the start in which nothing comes between the adapter and its checkpoint, however often the
      process restarts: no poll posts an event that was accepted before, and no duplicate is ever counted. */
  lemma {:induction false} NothingPostedTwice(cfg: Config, worlds: seq<World>, steps: seq<Step>, start: real, n: nat)
    requires IsRun(cfg, worlds, steps) && Init(cfg, worlds[0], start) && DistinctAlways(worlds) && n <= |steps|
    requires forall i :: 0 <= i < |steps| ==> Undisturbed(worlds[i], steps[i])
    ensures worlds[n].a.duplicate == 0
    ensures n < |steps| ==> forall batch, d ::
      batch in worlds[n + 1].posts && batch !in worlds[n].posts && d in batch ==> d.id !in worlds[n].plane.log
  {
    RunUnrepeated(cfg, worlds, steps, start, n);
    if n < |steps| && steps[n].Poll? {
      var w := worlds[n];
      assert Enabled(cfg, w, steps[n]) && worlds[n + 1] == Next(cfg, w, steps[n]);
      PollLooksAhead(cfg, w, steps[n].now, steps[n].net);
      hide Next, AllBehind, DistinctIds, Past;
      forall batch, d | batch in worlds[n + 1].posts && batch !in w.posts && d in batch ensures d.id !in w.plane.log {
        BehindIsNotAhead(w, w.a.cursor, d);
      }
    } else if n < |steps| {
      assert Enabled(cfg, worlds[n], steps[n]) && worlds[n + 1] == Next(cfg, worlds[n], steps[n]);
    }
  }

  lemma {:induction false} RunUnrepeated(cfg: Config, worlds: seq<World>, steps: seq<Step>, start: real, n: nat)
    requires IsRun(cfg, worlds, steps) && Init(cfg, worlds[0], start) && DistinctAlways(worlds) && n <= |steps|
    requires forall i :: 0 <= i < |steps| ==> Undisturbed(worlds[i], steps[i])
    ensures Unrepeated(cfg, worlds[n])
  {
    hide Next, Enabled, Unrepeated, Undisturbed, DistinctIds, Init;
    if n == 0 {
      InitUnrepeated(cfg, worlds[0], start);
    } else {
      RunUnrepeated(cfg, worlds, steps, start, n - 1);
      StepUnrepeated(cfg, worlds[n - 1], steps[n - 1]);
    }
  }

  lemma {:induction false} InitUnrepeated(cfg: Config, w: World, start: real)
    requires Init(cfg, w, start)
    ensures Unrepeated(cfg, w)
  {
  }

  // ----- when a poll saves

  /** What a completed ingest does to the flags and the durable cursor. */
  lemma {:induction false} IngestSavesWhenMoved(cfg: Config, a: State, p: Plane, ix: seq<Doc>, now: real, net: Net)
    requires Ready(a, now) && IngestOnce(cfg, a, p, ix, now, net).result.Some?
    ensures var o := IngestOnce(cfg, a, p, ix, now, net);
      && o.a.checkpointLoaded == a.checkpointLoaded
      && (o.result.value.advanced <==> o.a.cursor != a.cursor)
      && (o.a.cursor == a.cursor ==>
            o.p.row == p.row && o.a.saveFailing == a.saveFailing && o.a.checkpointSaved == a.checkpointSaved)
      && (o.a.cursor != a.cursor && net.save == Delivered ==>
            o.p.row == Some(Merge(p.row, o.a.cursor)) && !o.a.saveFailing && o.a.checkpointSaved)
      && (o.a.cursor != a.cursor && net.save != Delivered ==> o.a.saveFailing)
  {
    hide Page, Events, Accept, Duplicates, Take, Capacity, Merge, NextCursor;
  }

  /** A completed poll sends its cursor to the control plane exactly when the cursor moved, the last save had
      failed, or the process has neither loaded nor saved a checkpoint; and if what it sends arrives and is
      confirmed, the process is in sync with a durable cursor at or past its own. */
  lemma {:induction false} SavesWhenDue(cfg: Config, w: World, now: real, net: Net)
    requires Enabled(cfg, w, Poll(now, net)) && Completes(cfg, w, now, net)
    ensures var w' := Next(cfg, w, Poll(now, net));
      var due := w'.a.cursor != w.a.cursor || w.a.saveFailing || (!w.a.checkpointLoaded && !w.a.checkpointSaved);
      && w'.puts == w.puts + (if due then {w'.a.cursor} else {})
      && (!due ==> w'.plane.row == w.plane.row)
      && (net.save == Delivered && net.resave == Delivered ==>
            !w'.a.saveFailing && (w'.a.checkpointLoaded || w'.a.checkpointSaved))
      && (due && net.save == Delivered && net.resave == Delivered ==>
            w'.a.checkpointSaved && w'.plane.row.Some? && AtMost(w'.a.cursor, w'.plane.row.value))
  {
    CompletesIffResult(cfg, w, now, net);
    hide Completes, IngestOnce, Posted, AtMost, Merge;
    IngestSavesWhenMoved(cfg, w.a, w.plane, w.index, now, net);
    var o := IngestOnce(cfg, w.a, w.plane, w.index, now, net);
    MergeReachesPut(w.plane.row, o.a.cursor);
    MergeReachesPut(o.p.row, o.a.cursor);
  }
}
