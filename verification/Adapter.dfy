/**
 The adapter as the source has it: fields updated in place, loops over the hits of a page
 (src/soctalk_adapter/main.py).  Every method is proved against AdapterSpec.
 */
module Adapters {
  import opened Wrappers
  import opened Keyset
  import opened ControlPlanes
  import opened TokenBuckets
  import opened AdapterSpec

  /** `_query_alerts`: walk the sorted index to the cursor, then take one page. */
  method QueryAlerts(ix: seq<Doc>, since: Cursor, limit: nat) returns (hits: seq<Doc>)
    requires Sorted(ix)
    ensures hits == Page(ix, since, limit)
    ensures forall d :: d in hits ==> d in ix && Past(d, since)
    ensures forall d :: d in ix && Past(d, since) && d !in hits ==>
              |hits| == limit && forall h :: h in hits ==> Before(Key(h), Key(d))
  {
    var start := 0;
    while start < |ix| && !Past(ix[start], since)
      invariant start <= |ix|
      invariant Rank(ix, since) == start + Rank(ix[start..], since)
    {
      assert ix[start..][1..] == ix[start + 1..];
      start := start + 1;
    }
    RankSplits(ix, since);
    hits := ix[start..];
    if |hits| > limit {
      hits := hits[..limit];
    }
  }

  class Adapter {
    const cfg: Config
    const bucket: TokenBucket
    const plane: ControlPlane

    var lastAlertTs: int
    var lastAlertId: Option<int>
    var alertsQueried: nat
    var alertsForwarded: nat
    var alertsDuplicate: nat
    var alertsDropped: nat
    var alertsDeferred: nat
    var checkpointLoaded: bool
    var checkpointSaveFailing: bool
    var checkpointSaved: bool
    var phase: Phase
    var phaseSince: real
    var interval: real
    var lastPollOk: Option<real>
    var consecutivePollFailures: nat

    function Value(): State
      reads this, bucket
    {
      State(Cursor(lastAlertTs, lastAlertId),
            alertsQueried, alertsForwarded, alertsDuplicate, alertsDropped, alertsDeferred,
            checkpointLoaded, checkpointSaveFailing, checkpointSaved,
            phase, phaseSince, interval, lastPollOk, consecutivePollFailures,
            bucket.Value())
    }

    constructor (cfg: Config, plane: ControlPlane, now: real)
      ensures this.cfg == cfg && this.plane == plane && fresh(bucket)
      ensures Value() == Boot(cfg, now)
    {
      this.cfg := cfg;
      this.plane := plane;
      bucket := new TokenBucket(cfg.rate, cfg.burst, now);
      lastAlertTs, lastAlertId := cfg.initialTs, None;
      alertsQueried, alertsForwarded, alertsDuplicate, alertsDropped, alertsDeferred := 0, 0, 0, 0, 0;
      checkpointLoaded, checkpointSaveFailing, checkpointSaved := false, false, false;
      phase, phaseSince, interval := Starting, now, cfg.interval;
      lastPollOk, consecutivePollFailures := None, 0;
    }

    method Load(ok: bool)
      modifies this
      ensures Value() == LoadCheckpoint(old(Value()), plane.row, ok)
    {
      if !ok {
        return;
      }
      if plane.row.Some? {
        lastAlertTs := plane.row.value.ts;
      }
      lastAlertId := if plane.row.Some? then plane.row.value.id else None;
      checkpointLoaded := true;
    }

    method Save(c: Cursor, f: Fault)
      modifies this, plane
      ensures Value() == SaveState(old(Value()), f)
      ensures plane.Value() == SavePlane(old(plane.Value()), c, f)
    {
      if f != LostBefore {
        plane.PutCheckpoint(c);
      }
      if f == Delivered {
        checkpointSaveFailing := false;
        checkpointSaved := true;
      } else {
        checkpointSaveFailing := true;
      }
    }

    /** The mapping loop over the hits. */
    static method MapHits(hits: seq<Doc>) returns (events: seq<Doc>)
      ensures events == Events(hits)
    {
      events := [];
      for i := 0 to |hits|
        invariant events == Events(hits[..i])
      {
        assert hits[..i + 1][..i] == hits[..i];
        if hits[i].mappable {
          events := events + [hits[i]];
        }
      }
      assert hits[..|hits|] == hits;
    }

    /** Take tokens for a page and book what does not fit. */
    method CutToCapacity(page: seq<Doc>, events: seq<Doc>, now: real) returns (allowed: nat)
      requires Ready(Value(), now) && events == Events(page)
      modifies this, bucket
      ensures allowed == Capacity(old(Value()), events, now)
      ensures Value() == Cut(cfg, old(Value()), page, now)
    {
      alertsQueried := alertsQueried + |page|;
      TakeStaysWithinBurst(bucket.Value(), |events|, now);
      var excess;
      allowed, excess := bucket.DoTake(|events|, now);
      if excess > 0 {
        if cfg.shed {
          alertsDropped := alertsDropped + excess;
        } else {
          alertsDeferred := alertsDeferred + excess;
        }
      }
    }

    /** One poll.  `None` stands for an exception. */
    method Ingest(ix: seq<Doc>, now: real, net: Net) returns (result: Option<PollResult>)
      requires Ready(Value(), now) && Sorted(ix)
      modifies this, bucket, plane
      ensures Outcome(Value(), plane.Value(), result) == IngestOnce(cfg, old(Value()), old(plane.Value()), ix, now, net)
    {
      if !net.queried {
        return None;
      }
      var hits := QueryAlerts(ix, Cursor(lastAlertTs, lastAlertId), cfg.batch);
      var events := MapHits(hits);
      if events == [] {
        alertsQueried := alertsQueried + |hits|;
        return Some(PollResult(|hits|, 0, 0, 0, false));
      }
      var allowed := CutToCapacity(hits, events, now);
      result := PostAndAdvance(hits, events, allowed, net);
    }

    method PostAndAdvance(page: seq<Doc>, events: seq<Doc>, allowed: nat, net: Net) returns (result: Option<PollResult>)
      requires events == Events(page) && allowed <= |events|
      modifies this, plane
      ensures Outcome(Value(), plane.Value(), result) == Deliver(cfg, old(Value()), old(plane.Value()), page, allowed,
              net)
    {
      hide Events, Accept, Duplicates, ResultOf, SaveState, SavePlane;
      ghost var a, p := Value(), plane.Value();
      var newTs, newId := lastAlertTs, lastAlertId;
      var dropped := cfg.shed && allowed < |events|;
      if dropped {
        newTs := events[|events| - 1].ts;
        newId := Some(events[|events| - 1].id);
      }
      var sent := events[..allowed];
      var posted := Post(sent, net.post);
      if !posted {
        return None;
      }
      if sent != [] && !dropped {
        newTs := sent[|sent| - 1].ts;
        newId := Some(sent[|sent| - 1].id);
      }
      assert Cursor(newTs, newId) == NextCursor(cfg, a.cursor, events, allowed);
      assert plane.Value() == p.(log := Accept(p.log, sent));
      var advanced := MoveCursor(Cursor(newTs, newId), net.save);
      result := Some(ResultOf(cfg, page, allowed, advanced));
    }

    /** Send a batch, if there is one, and count what came back; false stands for an exception. */
    method Post(sent: seq<Doc>, fault: Fault) returns (posted: bool)
      modifies this, plane
      ensures posted == (sent == [] || fault == Delivered)
      ensures plane.Value() == if sent != [] && fault == LostBefore then old(plane.Value())
                               else old(plane.Value()).(log := Accept(old(plane.log), sent))
      ensures var a, dup := old(Value()), Duplicates(old(plane.log), sent);
        Value() == if posted then a.(duplicate := a.duplicate + dup, forwarded := a.forwarded + (|sent| - dup)) else a
    {
      if sent == [] {
        return true;
      }
      if fault == LostBefore {
        return false;
      }
      var dup := plane.IngestEvents(sent);
      if fault == LostAfter {
        return false;
      }
      alertsDuplicate := alertsDuplicate + dup;
      alertsForwarded := alertsForwarded + (|sent| - dup);
      posted := true;
    }

    /** Adopt and save a new cursor, if it is new. */
    method MoveCursor(c: Cursor, save: Fault) returns (advanced: bool)
      modifies this, plane
      ensures advanced == (c != old(Value()).cursor)
      ensures Value() == if advanced then SaveState(old(Value()).(cursor := c), save) else old(Value())
      ensures plane.Value() == if advanced then SavePlane(old(plane.Value()), c, save) else old(plane.Value())
    {
      advanced := (c.ts, c.id) != (lastAlertTs, lastAlertId);
      if advanced {
        lastAlertTs := c.ts;
        lastAlertId := c.id;
        Save(c, save);
      }
    }

    /** One loop iteration with health bookkeeping; never raises. */
    method Poll(ix: seq<Doc>, now: real, net: Net) returns (result: Option<PollResult>)
      requires Ready(Value(), now) && Sorted(ix)
      modifies this, bucket, plane
      ensures Outcome(Value(), plane.Value(), result) == PollCycle(cfg, old(Value()), old(plane.Value()), ix, now, net)
    {
      result := None;
      if net.tokenRead {
        result := Ingest(ix, now, net);
      }
      if result == None {
        consecutivePollFailures := consecutivePollFailures + 1;
        return;
      }
      lastPollOk := Some(now);
      consecutivePollFailures := 0;
      if checkpointSaveFailing || !(checkpointLoaded || checkpointSaved) {
        Save(Cursor(lastAlertTs, lastAlertId), net.resave);
      }
    }

    /** Health follows the ingest loop.  Each answer is given exactly when its reasons hold. */
    method ComputeHealth(now: real) returns (health: Health, reasons: seq<Reason>)
      ensures health == Ok <==> Healthy(Value(), now)
      ensures phase == Disabled ==> reasons == []
      ensures phase != Disabled ==>
        && (IngestStopped in reasons <==> phase == Stopped)
        && (PollStale in reasons <==> phase != Stopped && Stale(Value(), now))
        && (PollFailing in reasons <==> consecutivePollFailures > 0)
        && (CheckpointNotLoaded in reasons <==> phase == Polling && !checkpointLoaded && !checkpointSaved)
        && (CheckpointSaveFailing in reasons <==> checkpointSaveFailing)
        && (health == Failing <==>
              IngestStopped in reasons || PollStale in reasons || consecutivePollFailures >= POLL_FAILING_THRESHOLD)
        && (health == Ok <==> reasons == [])
    {
      if phase == Disabled {
        return Ok, [];
      }
      var failing, degraded: seq<Reason> := [], [];
      if phase == Stopped {
        failing := failing + [IngestStopped];
      } else {
        var staleAfter := if POLL_STALE_MIN_SECONDS >= 3.0 * interval then POLL_STALE_MIN_SECONDS else 3.0 * interval;
        var since := if lastPollOk.Some? then lastPollOk.value else phaseSince;
        if now - since > staleAfter {
          failing := failing + [PollStale];
        }
      }
      if consecutivePollFailures >= POLL_FAILING_THRESHOLD {
        failing := failing + [PollFailing];
      } else if consecutivePollFailures > 0 {
        degraded := degraded + [PollFailing];
      }
      if phase == Polling && !(checkpointLoaded || checkpointSaved) {
        degraded := degraded + [CheckpointNotLoaded];
      }
      if checkpointSaveFailing {
        degraded := degraded + [CheckpointSaveFailing];
      }
      reasons := failing + degraded;
      if failing != [] {
        return Failing, reasons;
      }
      if degraded != [] {
        return Degraded, reasons;
      }
      return Ok, [];
    }
  }
}
