/**
 The two things the control plane does for the adapter: it accepts a batch of events, each source
 event id once (the idempotency constraint of alembic/versions/v1_0018_source_events_and_checkpoints.py),
 and it keeps one durable cursor, merged by the upsert of src/soctalk/core/api/adapter.py.
 */
module ControlPlanes {
  import opened Wrappers
  import opened Keyset

  datatype Plane = Plane(log: seq<int>, row: Option<Cursor>)

  /** The accepted ids after a batch, oldest first. */
  function Accept(log: seq<int>, events: seq<Doc>): seq<int> {
    if events == [] then log
    else
      var before := Accept(log, events[..|events| - 1]);
      var id := events[|events| - 1].id;
      if id in before then before else before + [id]
  }

  function Duplicates(log: seq<int>, events: seq<Doc>): (n: nat)
    ensures n <= |events|
  {
    if events == [] then 0
    else
      var init := events[..|events| - 1];
      Duplicates(log, init) + (if events[|events| - 1].id in Accept(log, init) then 1 else 0)
  }

  /** The upsert: the timestamp never falls, but the id is overwritten whenever the timestamp does
      not fall. */
  function Merge(row: Option<Cursor>, put: Cursor): Cursor {
    match row
    case None => put
    case Some(stored) =>
      Cursor(if put.ts > stored.ts then put.ts else stored.ts, if put.ts >= stored.ts then put.id else stored.id)
  }

  function Put(p: Plane, c: Cursor): Plane {
    p.(row := Some(Merge(p.row, c)))
  }

  class ControlPlane {
    var log: seq<int>
    var row: Option<Cursor>

    function Value(): Plane
      reads this
    {
      Plane(log, row)
    }

    constructor ()
      ensures Value() == Plane([], None)
    {
      log := [];
      row := None;
    }

    method IngestEvents(events: seq<Doc>) returns (duplicates: nat)
      modifies this`log
      ensures log == Accept(old(log), events)
      ensures duplicates == Duplicates(old(log), events)
    {
      duplicates := 0;
      for i := 0 to |events|
        invariant log == Accept(old(log), events[..i])
        invariant duplicates == Duplicates(old(log), events[..i])
      {
        assert events[..i + 1][..i] == events[..i];
        if events[i].id in log {
          duplicates := duplicates + 1;
        } else {
          log := log + [events[i].id];
        }
      }
      assert events[..|events|] == events;
    }

    method PutCheckpoint(c: Cursor)
      modifies this`row
      ensures Value() == Put(old(Value()), c)
    {
      if row == None {
        row := Some(c);
      } else {
        var stored := row.value;
        var ts := if stored.ts >= c.ts then stored.ts else c.ts;
        row := Some(Cursor(ts, if c.ts >= stored.ts then c.id else stored.id));
      }
    }
  }

  // ----- acceptance

  lemma {:induction false} AcceptMembers(log: seq<int>, events: seq<Doc>, id: int)
    ensures id in Accept(log, events) <==> id in log || exists d :: d in events && d.id == id
  {
    if events != [] {
      var init, last := events[..|events| - 1], events[|events| - 1];
      assert events == init + [last];
      AcceptMembers(log, init, id);
      AcceptMembers(log, init, last.id);
      assert last in events;
    }
  }

  /** No id is ever accepted twice. */
  lemma {:induction false} AcceptsOnce(log: seq<int>, events: seq<Doc>)
    requires Distinct(log)
    ensures Distinct(Accept(log, events))
  {
    if events != [] {
      AcceptsOnce(log, events[..|events| - 1]);
    }
  }

  /** What was accepted stays accepted, and every event of a batch is either new or a duplicate. */
  lemma {:induction false} AcceptExtends(log: seq<int>, events: seq<Doc>)
    ensures |log| <= |Accept(log, events)| && Accept(log, events)[..|log|] == log
    ensures |Accept(log, events)| + Duplicates(log, events) == |log| + |events|
  {
    if events != [] {
      AcceptExtends(log, events[..|events| - 1]);
    }
  }

  // ----- the durable cursor

  /** The source promises that a delayed writer never moves the durable cursor back.  It can: exactly a
      put with the stored timestamp and a smaller id does. */
  lemma {:induction false} MergeMovesBackIff(stored: Cursor, put: Cursor)
    ensures AtMost(stored, Merge(Some(stored), put)) <==> !(put.ts == stored.ts && Before(put, stored))
  {
  }

  /** Right after a put, the durable cursor is at or past what was put. */
  lemma {:induction false} MergeReachesPut(row: Option<Cursor>, put: Cursor)
    ensures AtMost(put, Merge(row, put))
    ensures Merge(row, put) == put || row == Some(Merge(row, put))
  {
  }
}
