/**
 The state of the alert adapter and what its calls do to it (src/soctalk_adapter/main.py:
 `_State`, `_load_checkpoint`, `_save_checkpoint`, `_ingest_once`, `_poll_cycle`).

 A remote call is delivered, lost before it had an effect, or lost after it.  The class
 `Adapter` of Adapter.dfy is proved against these functions; the protocol lemmas are proved
 about them.
 */
module AdapterSpec {
  import opened Wrappers
  import opened Keyset
  import opened ControlPlanes
  import opened TokenBuckets

  datatype Fault = Delivered | LostBefore | LostAfter

  /** What the environment does to the calls of one poll cycle: reading the token, querying the index,
      posting the events, saving the cursor, and saving it once more after the poll. */
  datatype Net = Net(tokenRead: bool, queried: bool, post: Fault, save: Fault, resave: Fault)

  const FAULT_FREE := Net(true, true, Delivered, Delivered, Delivered)

  datatype Config = Config(rate: real, burst: int, batch: nat, shed: bool, initialTs: int, interval: real)

  datatype Phase = Starting | Polling | Disabled | Stopped

  datatype State = State(
    cursor: Cursor,
    queried: nat, forwarded: nat, duplicate: nat, dropped: nat, deferred: nat,
    checkpointLoaded: bool, saveFailing: bool, checkpointSaved: bool,
    phase: Phase, phaseSince: real, interval: real, lastPollOk: Option<real>, failures: nat,
    bucket: Bucket)

  datatype PollResult = PollResult(queried: nat, forwarded: nat, deferred: nat, dropped: nat, advanced: bool)

  function StartCursor(cfg: Config): Cursor {
    Cursor(cfg.initialTs, None)
  }

  /** A process that has just started. */
  function Boot(cfg: Config, now: real): State {
    State(StartCursor(cfg), 0, 0, 0, 0, 0, false, false, false, Starting, now, cfg.interval, None, 0,
          Fresh(cfg.rate, cfg.burst, now))
  }

  function LoadCheckpoint(a: State, row: Option<Cursor>, ok: bool): State {
    if !ok then a
    else if row == None then a.(cursor := a.cursor.(id := None), checkpointLoaded := true)
    else a.(cursor := row.value, checkpointLoaded := true)
  }

  function SaveState(a: State, f: Fault): State {
    if f == Delivered then a.(saveFailing := false, checkpointSaved := true) else a.(saveFailing := true)
  }

  function SavePlane(p: Plane, c: Cursor, f: Fault): Plane {
    if f == LostBefore then p else Put(p, c)
  }

  ghost predicate Ready(a: State, now: real) {
    Valid(a.bucket) && a.bucket.last <= now
  }

  /** The events the bucket admits. */
  function Capacity(a: State, events: seq<Doc>, now: real): (m: nat)
    requires Ready(a, now)
    ensures m <= |events|
  {
    TakeStaysWithinBurst(a.bucket, |events|, now);
    Allowed(a.bucket, |events|, now)
  }

  /** The counters and the bucket once the page is cut. */
  function Cut(cfg: Config, a: State, page: seq<Doc>, now: real): State
    requires Ready(a, now)
  {
    var events := Events(page);
    var excess := |events| - Capacity(a, events, now);
    a.(queried := a.queried + |page|,
       bucket := Take(a.bucket, |events|, now),
       dropped := a.dropped + (if cfg.shed then excess else 0),
       deferred := a.deferred + (if cfg.shed then 0 else excess))
  }

  /** Where the cursor goes: past the discarded tail in shed mode, otherwise to the last forwarded event. */
  function NextCursor(cfg: Config, c: Cursor, events: seq<Doc>, m: nat): Cursor
    requires m <= |events|
  {
    if cfg.shed && m < |events| then Key(events[|events| - 1])
    else if m > 0 then Key(events[m - 1])
    else c
  }

  function ResultOf(cfg: Config, page: seq<Doc>, m: nat, advanced: bool): PollResult
    requires m <= |Events(page)|
  {
    var excess := |Events(page)| - m;
    PollResult(|page|, m, if cfg.shed then 0 else excess, if cfg.shed then excess else 0, advanced)
  }

  datatype Outcome = Outcome(a: State, p: Plane, result: Option<PollResult>)

  /** Once the events are posted: count them, move the cursor, save it. */
  function Advance(cfg: Config, a: State, p: Plane, page: seq<Doc>, m: nat, save: Fault): Outcome
    requires m <= |Events(page)|
  {
    var events := Events(page);
    var dup := Duplicates(p.log, events[..m]);
    var p' := p.(log := Accept(p.log, events[..m]));
    var a' := a.(duplicate := a.duplicate + dup, forwarded := a.forwarded + (m - dup));
    var c := NextCursor(cfg, a.cursor, events, m);
    if c == a.cursor then Outcome(a', p', Some(ResultOf(cfg, page, m, false)))
    else Outcome(SaveState(a'.(cursor := c), save), SavePlane(p', c, save), Some(ResultOf(cfg, page, m, true)))
  }

  /** Post the first m events, if any, and advance; an exception leaves the cursor alone. */
  function Deliver(cfg: Config, a: State, p: Plane, page: seq<Doc>, m: nat, net: Net): Outcome
    requires m <= |Events(page)|
  {
    if m > 0 && net.post == LostBefore then Outcome(a, p, None)
    else if m > 0 && net.post == LostAfter then Outcome(a, p.(log := Accept(p.log, Events(page)[..m])), None)
    else Advance(cfg, a, p, page, m, net.save)
  }

  function IngestOnce(cfg: Config, a: State, p: Plane, ix: seq<Doc>, now: real, net: Net): Outcome
    requires Ready(a, now)
  {
    if !net.queried then Outcome(a, p, None)
    else
      var page := Page(ix, a.cursor, cfg.batch);
      var events := Events(page);
      if events == [] then
        Outcome(a.(queried := a.queried + |page|), p, Some(PollResult(|page|, 0, 0, 0, false)))
      else
        Deliver(cfg, Cut(cfg, a, page, now), p, page, Capacity(a, events, now), net)
  }

  predicate NeedsSave(a: State) {
    a.saveFailing || !(a.checkpointLoaded || a.checkpointSaved)
  }

  function PollCycle(cfg: Config, a: State, p: Plane, ix: seq<Doc>, now: real, net: Net): Outcome
    requires Ready(a, now)
  {
    if !net.tokenRead then Outcome(a.(failures := a.failures + 1), p, None)
    else
      var o := IngestOnce(cfg, a, p, ix, now, net);
      if o.result == None then Outcome(o.a.(failures := o.a.failures + 1), o.p, None)
      else
        var a' := o.a.(lastPollOk := Some(now), failures := 0);
        if NeedsSave(a') then Outcome(SaveState(a', net.resave), SavePlane(o.p, a'.cursor, net.resave), o.result)
        else Outcome(a', o.p, o.result)
  }

  // ----- health

  datatype Health = Ok | Degraded | Failing

  datatype Reason = IngestStopped | PollStale | PollFailing | CheckpointNotLoaded | CheckpointSaveFailing

  const POLL_FAILING_THRESHOLD := 3
  const POLL_STALE_MIN_SECONDS := 120.0

  function StaleAfter(a: State): real {
    if POLL_STALE_MIN_SECONDS >= 3.0 * a.interval then POLL_STALE_MIN_SECONDS else 3.0 * a.interval
  }

  function Since(a: State): real {
    if a.lastPollOk.Some? then a.lastPollOk.value else a.phaseSince
  }

  predicate Stale(a: State, now: real) {
    now - Since(a) > StaleAfter(a)
  }

  /** What it takes to report `ok`. */
  predicate Healthy(a: State, now: real) {
    || a.phase == Disabled
    || (&& a.phase != Stopped
        && !Stale(a, now)
        && a.failures == 0
        && !a.saveFailing
        && (a.phase == Polling ==> a.checkpointLoaded || a.checkpointSaved))
  }
}
