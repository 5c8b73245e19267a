/**
 The setup wizard's failed-attempt limiter (setup-wizard/auth.go).

 `Limits` is the abstract state and `Allow`, `Fail`, `Succeed` its transitions; the class
 `RateLimiter` holds the slices of the source and compacts them in place.  LimiterRuns.dfy speaks
 about whole runs.  Times are nanoseconds.
 */
module RateLimiter {

  const MAX_FAILURES := 10
  const HOUR := 3_600_000_000_000
  const FAILURE_WINDOW := HOUR
  const BLOCK_DURATION := HOUR
  const MIN_INTERVAL := 30_000_000_000

  type Ip = string

  datatype Limits = Limits(attempts: map<Ip, seq<int>>, blocked: map<Ip, int>)

  datatype Verdict = Verdict(ok: bool, retryAfter: int)

  function History(l: Limits, ip: Ip): seq<int> {
    if ip in l.attempts then l.attempts[ip] else []
  }

  /** The entries after the cutoff, in order. */
  function Prune(history: seq<int>, cutoff: int): seq<int> {
    if history == [] then []
    else
      var init, last := history[..|history| - 1], history[|history| - 1];
      Prune(init, cutoff) + (if last > cutoff then [last] else [])
  }

  /** The interval to the last attempt still in the window. */
  function Gate(pruned: seq<int>, now: int): Verdict {
    if pruned != [] && now - pruned[|pruned| - 1] < MIN_INTERVAL
    then Verdict(false, MIN_INTERVAL - (now - pruned[|pruned| - 1]))
    else Verdict(true, 0)
  }

  function Allow(l: Limits, ip: Ip, now: int): (Limits, Verdict) {
    if ip in l.blocked && now < l.blocked[ip] then (l, Verdict(false, l.blocked[ip] - now))
    else
      var pruned := Prune(History(l, ip), now - FAILURE_WINDOW);
      (Limits(l.attempts[ip := pruned], l.blocked - {ip}), Gate(pruned, now))
  }

  /** `recorded` and `after` are the two clock readings of the source. */
  function Fail(l: Limits, ip: Ip, recorded: int, after: int): Limits {
    var history := History(l, ip) + [recorded];
    Limits(l.attempts[ip := history],
           if |history| >= MAX_FAILURES then l.blocked[ip := after + BLOCK_DURATION] else l.blocked)
  }

  function Succeed(l: Limits, ip: Ip): Limits {
    l.(attempts := l.attempts - {ip})
  }

  // ----- the implementation

  /** A slice of the source: the first `len` cells of a backing array, or nil. */
  datatype Slice = Nil | Slice(buf: array<int>, len: nat)

  /** The loop over `cur[:0]`: keep the entries after the cutoff, compacting them to the front. */
  method Compact(buf: array<int>, n: nat, cutoff: int) returns (k: nat)
    requires n <= buf.Length
    modifies buf
    ensures k <= n
    ensures buf[..k] == Prune(old(buf[..n]), cutoff)
    ensures buf[n..] == old(buf[n..])
  {
    k := 0;
    ghost var start := buf[..];
    for i := 0 to n
      invariant k <= i
      invariant buf[..k] == Prune(start[..i], cutoff)
      invariant forall j :: i <= j < buf.Length ==> buf[j] == start[j]
    {
      var t := buf[i];
      assert start[..i + 1][..i] == start[..i];
      ghost var kept := buf[..k];
      if t > cutoff {
        buf[k] := t;
        assert buf[..k + 1] == kept + [t];
        k := k + 1;
      }
    }
    assert start[..n] == old(buf[..n]);
  }

  class RateLimiter {
    var attempts: map<Ip, Slice>
    var blocked: map<Ip, int>

    ghost predicate Valid()
      reads this
    {
      && (forall ip :: ip in attempts && attempts[ip].Slice? ==> attempts[ip].len <= attempts[ip].buf.Length)
      && (forall ip, jp ::
            ip in attempts && jp in attempts && ip != jp && attempts[ip].Slice? && attempts[jp].Slice? ==>
              attempts[ip].buf != attempts[jp].buf)
    }

    /** The backing arrays; no two addresses share one. */
    ghost function Buffers(): set<array<int>>
      reads this
    {
      set ip | ip in attempts && attempts[ip].Slice? :: attempts[ip].buf
    }

    ghost function Own(ip: Ip): set<array<int>>
      reads this
    {
      if ip in attempts && attempts[ip].Slice? then {attempts[ip].buf} else {}
    }

    ghost function Entries(ip: Ip): seq<int>
      requires Valid() && ip in attempts
      reads this, Buffers()
    {
      var s := attempts[ip];
      if s.Nil? then [] else s.buf[..s.len]
    }

    ghost function Abstract(): Limits
      requires Valid()
      reads this, Buffers()
    {
      Limits(map ip | ip in attempts :: Entries(ip), blocked)
    }

    constructor ()
      ensures Valid() && Abstract() == Limits(map[], map[]) && Buffers() == {}
    {
      attempts := map[];
      blocked := map[];
    }

    /** If one address's entries were replaced and no other entries changed, so did its history alone. */
    lemma OnlyOwnHistoryChanged(before: map<Ip, seq<int>>, ip: Ip, history: seq<int>)
      requires Valid()
      requires attempts.Keys == before.Keys + {ip}
      requires Entries(ip) == history
      requires forall jp :: jp in before && jp != ip ==> Entries(jp) == before[jp]
      ensures Abstract().attempts == before[ip := history]
    {
    }

    /** Drop one address's attempts outside the window, in its own backing array. */
    method PruneOwn(ip: Ip, cutoff: int) returns (pruned: Slice)
      requires Valid()
      modifies this`attempts, Own(ip)
      ensures Valid() && Buffers() <= old(Buffers())
      ensures Abstract().attempts == old(Abstract()).attempts[ip := Prune(old(History(Abstract(), ip)), cutoff)]
      ensures pruned.Slice? ==> pruned.len <= pruned.buf.Length
      ensures Prune(old(History(Abstract(), ip)), cutoff) == if pruned.Nil? then [] else pruned.buf[..pruned.len]
    {
      var cur := if ip in attempts then attempts[ip] else Nil;
      ghost var before := old(Abstract()).attempts;
      ghost var history := if cur.Nil? then [] else old(cur.buf[..cur.len]);
      assert history == old(History(Abstract(), ip));
      pruned := Nil;
      if cur.Slice? {
        var k := Compact(cur.buf, cur.len, cutoff);
        pruned := Slice(cur.buf, k);
      }
      attempts := attempts[ip := pruned];
      forall jp | jp in before && jp != ip ensures Entries(jp) == before[jp] {
        assert attempts[jp] == old(attempts[jp]);
      }
      OnlyOwnHistoryChanged(before, ip, Prune(history, cutoff));
    }

    /** Does a block stand?  An expired one is lifted. */
    method CheckBlock(ip: Ip, now: int) returns (standing: bool)
      requires Valid()
      modifies this`blocked
      ensures Valid() && Buffers() == old(Buffers())
      ensures standing == (ip in old(blocked) && now < old(blocked)[ip])
      ensures blocked == if standing then old(blocked) else old(blocked) - {ip}
      ensures Abstract() == Limits(old(Abstract()).attempts, blocked)
    {
      if ip in blocked {
        if now < blocked[ip] {
          return true;
        }
        blocked := blocked - {ip};
      }
      return false;
    }

    method AllowAttempt(ip: Ip, now: int) returns (ok: bool, retryAfter: int)
      requires Valid()
      modifies this, Own(ip)
      ensures Valid() && Buffers() <= old(Buffers())
      ensures (Abstract(), Verdict(ok, retryAfter)) == Allow(old(Abstract()), ip, now)
    {
      hide Prune, Gate;
      ghost var before := Abstract();
      var standing := CheckBlock(ip, now);
      if standing {
        return false, blocked[ip] - now;
      }
      assert History(Abstract(), ip) == History(before, ip);
      var pruned := PruneOwn(ip, now - FAILURE_WINDOW);
      assert Abstract() == Limits(Abstract().attempts, blocked);
      ok, retryAfter := CheckGate(pruned, now);
    }

    static method CheckGate(pruned: Slice, now: int) returns (ok: bool, retryAfter: int)
      requires pruned.Slice? ==> pruned.len <= pruned.buf.Length
      ensures Verdict(ok, retryAfter) == Gate(if pruned.Nil? then [] else pruned.buf[..pruned.len], now)
    {
      if pruned.Slice? && pruned.len > 0 {
        var since := now - pruned.buf[pruned.len - 1];
        if since < MIN_INTERVAL {
          return false, MIN_INTERVAL - since;
        }
      }
      return true, 0;
    }

    /** Go's append: in place while there is room, otherwise into a larger copy. */
    static method Append(s: Slice, t: int) returns (r: Slice)
      requires s.Slice? ==> s.len <= s.buf.Length
      modifies if s.Slice? then {s.buf} else {}
      ensures r.Slice? && r.len <= r.buf.Length
      ensures r.buf[..r.len] == (if s.Nil? then [] else old(s.buf[..s.len])) + [t]
      ensures (s.Slice? && r.buf == s.buf) || fresh(r.buf)
    {
      if s.Slice? && s.len < s.buf.Length {
        s.buf[s.len] := t;
        return Slice(s.buf, s.len + 1);
      }
      var n := if s.Nil? then 0 else s.len;
      var bigger := new int[2 * n + 1];
      for i := 0 to n
        invariant s.Slice? ==> bigger[..i] == s.buf[..i]
        invariant s.Slice? ==> s.buf[..] == old(s.buf[..])
      {
        bigger[i] := s.buf[i];
      }
      bigger[n] := t;
      r := Slice(bigger, n + 1);
    }

    /** Append one attempt to an address's own slice. */
    method AppendOwn(ip: Ip, recorded: int) returns (len: nat)
      requires Valid()
      modifies this`attempts, Own(ip)
      ensures Valid() && fresh(Buffers() - old(Buffers()))
      ensures Abstract().attempts == old(Abstract()).attempts[ip := old(History(Abstract(), ip)) + [recorded]]
      ensures len == |old(History(Abstract(), ip))| + 1
    {
      var cur := if ip in attempts then attempts[ip] else Nil;
      ghost var before := old(Abstract()).attempts;
      ghost var history := if cur.Nil? then [] else old(cur.buf[..cur.len]);
      assert history == old(History(Abstract(), ip));
      var longer := Append(cur, recorded);
      attempts := attempts[ip := longer];
      len := longer.len;
      assert |longer.buf[..longer.len]| == |history| + 1;
      forall jp | jp in before && jp != ip ensures Entries(jp) == before[jp] {
        assert attempts[jp] == old(attempts[jp]);
      }
      OnlyOwnHistoryChanged(before, ip, history + [recorded]);
    }

    method RecordFailure(ip: Ip, recorded: int, after: int)
      requires Valid()
      modifies this, Own(ip)
      ensures Valid() && fresh(Buffers() - old(Buffers()))
      ensures Abstract() == Fail(old(Abstract()), ip, recorded, after)
    {
      ghost var before := Abstract();
      var len := AppendOwn(ip, recorded);
      assert Abstract() == Limits(before.attempts[ip := History(before, ip) + [recorded]], before.blocked);
      if len >= MAX_FAILURES {
        blocked := blocked[ip := after + BLOCK_DURATION];
      }
    }

    method RecordSuccess(ip: Ip)
      requires Valid()
      modifies this
      ensures Valid() && Buffers() <= old(Buffers())
      ensures Abstract() == Succeed(old(Abstract()), ip)
    {
      attempts := attempts - {ip};
    }
  }
}
