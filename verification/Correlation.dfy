/**
 The deterministic attach rule of the correlation replay (evals/nessus_replay.py),
 with the strengths and the hub threshold of src/soctalk/core/ir/correlation.py.

 An event is its list of extracted keys.  `Run(events, n)` is the state after the first
 n events; `Replay` is the loop of the source.  The lemmas speak about every event
 sequence.
 */
module Correlation {
  import opened Wrappers

  datatype Strength = Strong | Conditional | Weak

  datatype KeyType = Host | Hash | Ip | Domain | User | Process | Port | Rule | Other(name: string)

  datatype Key = Key(kt: KeyType, kv: string)

  const HUB_THRESHOLD: nat := 200

  function StrengthOf(kt: KeyType): Strength {
    match kt
    case Host => Strong
    case Hash => Strong
    case Ip => Conditional
    case Domain => Conditional
    case _ => Weak
  }

  datatype State = State(
    sightings: map<Key, nat>,
    invOfKey: map<Key, nat>,
    invKeys: map<nat, set<Key>>,
    invRows: map<nat, nat>,
    nextInv: nat)

  function Seen<K>(m: map<K, nat>, k: K): nat {
    if k in m then m[k] else 0
  }

  function Bump<K>(m: map<K, nat>, k: K): map<K, nat> {
    m[k := Seen(m, k) + 1]
  }

  /** Whether a key may attach, given how often it has been seen including now. */
  predicate Attaches(k: Key, seen: nat) {
    match StrengthOf(k.kt)
    case Strong => true
    case Conditional => seen <= HUB_THRESHOLD
    case Weak => false
  }

  /** The sightings once the first n keys of an event are counted. */
  function Sight(sightings: map<Key, nat>, keys: seq<Key>, n: nat): map<Key, nat>
    requires n <= |keys|
  {
    if n == 0 then sightings else Bump(Sight(sightings, keys, n - 1), keys[n - 1])
  }

  /** The attach-eligible keys among the first n keys of an event, in the order it lists them. */
  function Eligible(sightings: map<Key, nat>, keys: seq<Key>, n: nat): seq<Key>
    requires n <= |keys|
  {
    if n == 0 then []
    else
      Eligible(sightings, keys, n - 1)
      + (if Attaches(keys[n - 1], Seen(Sight(sightings, keys, n), keys[n - 1])) then [keys[n - 1]] else [])
  }

  /** The investigation of the first bound key, if any key is bound. */
  function FirstBound(invOfKey: map<Key, nat>, keys: seq<Key>): Option<nat> {
    if keys == [] then None
    else if keys[0] in invOfKey then Some(invOfKey[keys[0]])
    else FirstBound(invOfKey, keys[1..])
  }

  /** The bindings once the first n of `keys` are bound to `target`, unless bound already. */
  function Bind(invOfKey: map<Key, nat>, keys: seq<Key>, n: nat, target: nat): map<Key, nat>
    requires n <= |keys|
  {
    if n == 0 then invOfKey
    else
      var m := Bind(invOfKey, keys, n - 1, target);
      if keys[n - 1] in m then m else m[keys[n - 1] := target]
  }

  /** The step on the data of one event: its counted sightings and its eligible keys. */
  function Join(st: State, sightings: map<Key, nat>, eligible: seq<Key>): State {
    var found := FirstBound(st.invOfKey, eligible);
    var target := Landing(st, eligible);
    State(
      sightings,
      Bind(st.invOfKey, eligible, |eligible|, target),
      st.invKeys[target := (if target in st.invKeys then st.invKeys[target] else {}) + set k | k in eligible],
      Bump(st.invRows, target),
      if found == None then st.nextInv + 1 else st.nextInv)
  }

  function Landing(st: State, eligible: seq<Key>): nat {
    match FirstBound(st.invOfKey, eligible)
    case Some(inv) => inv
    case None => st.nextInv
  }

  function Run(events: seq<seq<Key>>, n: nat): State
    requires n <= |events|
    decreases n, 0
  {
    if n == 0 then State(map[], map[], map[], map[], 0)
    else
      var st := Run(events, n - 1);
      Join(st, Sight(st.sightings, events[n - 1], |events[n - 1]|), EligibleAt(events, n - 1))
  }

  /** The eligible keys of event i of a run. */
  function EligibleAt(events: seq<seq<Key>>, i: nat): seq<Key>
    requires i < |events|
    decreases i, 1
  {
    Eligible(Run(events, i).sightings, events[i], |events[i]|)
  }

  /** The investigation event i of a run lands in. */
  function Landed(events: seq<seq<Key>>, i: nat): nat
    requires i < |events|
  {
    Landing(Run(events, i), EligibleAt(events, i))
  }

  // ----- the loops of the source

  /** Count the sightings of one event and keep its eligible keys. */
  method SightKeys(before: map<Key, nat>, keys: seq<Key>) returns (sightings: map<Key, nat>, eligible: seq<Key>)
    ensures sightings == Sight(before, keys, |keys|)
    ensures eligible == Eligible(before, keys, |keys|)
  {
    sightings, eligible := before, [];
    for i := 0 to |keys|
      invariant sightings == Sight(before, keys, i)
      invariant eligible == Eligible(before, keys, i)
    {
      var k := keys[i];
      sightings := sightings[k := (if k in sightings then sightings[k] else 0) + 1];
      var strength := StrengthOf(k.kt);
      if strength == Weak {
        continue;
      }
      if strength == Conditional && sightings[k] > HUB_THRESHOLD {
        continue;
      }
      eligible := eligible + [k];
    }
  }

  /** Look for a key that is already bound. */
  method FindBound(invOfKey: map<Key, nat>, eligible: seq<Key>) returns (target: Option<nat>)
    ensures target == FirstBound(invOfKey, eligible)
  {
    target := None;
    for i := 0 to |eligible|
      invariant FirstBound(invOfKey, eligible) == FirstBound(invOfKey, eligible[i..])
    {
      if eligible[i] in invOfKey {
        target := Some(invOfKey[eligible[i]]);
        return;
      }
    }
  }

  /** Bind the keys that are still unbound. */
  method BindKeys(before: map<Key, nat>, eligible: seq<Key>, inv: nat) returns (invOfKey: map<Key, nat>)
    ensures invOfKey == Bind(before, eligible, |eligible|, inv)
  {
    invOfKey := before;
    for i := 0 to |eligible|
      invariant invOfKey == Bind(before, eligible, i, inv)
    {
      if eligible[i] !in invOfKey {
        invOfKey := invOfKey[eligible[i] := inv];
      }
    }
  }

  /** The loop over the events, oldest first. */
  method Replay(events: seq<seq<Key>>) returns (st: State)
    ensures st == Run(events, |events|)
  {
    hide Sight, Eligible, Bind, FirstBound;
    var sightings: map<Key, nat> := map[];
    var invOfKey: map<Key, nat> := map[];
    var invKeys: map<nat, set<Key>> := map[];
    var invRows: map<nat, nat> := map[];
    var nextInv: nat := 0;
    for n := 0 to |events|
      invariant State(sightings, invOfKey, invKeys, invRows, nextInv) == Run(events, n)
    {
      var eligible;
      sightings, eligible := SightKeys(sightings, events[n]);
      var found := FindBound(invOfKey, eligible);
      var target: nat;
      if found == None {
        target := nextInv;
        nextInv := nextInv + 1;
      } else {
        target := found.value;
      }
      invOfKey := BindKeys(invOfKey, eligible, target);
      invKeys := invKeys[target := (if target in invKeys then invKeys[target] else {}) + set k | k in eligible];
      invRows := invRows[target := (if target in invRows then invRows[target] else 0) + 1];
    }
    st := State(sightings, invOfKey, invKeys, invRows, nextInv);
  }

  // ----- bound keys

  lemma {:induction false} BindKeeps(m: map<Key, nat>, keys: seq<Key>, n: nat, target: nat)
    requires n <= |keys|
    ensures forall k :: k in m ==> k in Bind(m, keys, n, target) && Bind(m, keys, n, target)[k] == m[k]
    ensures forall k :: k in Bind(m, keys, n, target) <==> k in m || k in keys[..n]
    ensures forall k :: k in Bind(m, keys, n, target) && k !in m ==> Bind(m, keys, n, target)[k] == target
  {
    if n > 0 {
      BindKeeps(m, keys, n - 1, target);
      assert keys[..n] == keys[..n - 1] + [keys[n - 1]];
    }
  }

  lemma {:induction false} FirstBoundIsBound(m: map<Key, nat>, keys: seq<Key>)
    ensures FirstBound(m, keys) == None <==> forall k :: k in keys ==> k !in m
    ensures FirstBound(m, keys).Some? ==> exists k :: k in keys && k in m && m[k] == FirstBound(m, keys).value
  {
    if keys != [] {
      FirstBoundIsBound(m, keys[1..]);
      assert keys == [keys[0]] + keys[1..];
      assert keys[0] in keys;
    }
  }

  lemma {:induction false} FirstBoundKey(m: map<Key, nat>, keys: seq<Key>) returns (k: Key)
    requires FirstBound(m, keys).Some?
    ensures k in keys && k in m && m[k] == FirstBound(m, keys).value
  {
    if keys[0] in m {
      k := keys[0];
    } else {
      k := FirstBoundKey(m, keys[1..]);
    }
  }

  /** What one event does to the bindings: old ones stay, and its unbound eligible keys are bound to the
      investigation it lands in. */
  lemma {:induction false} StepBindings(events: seq<seq<Key>>, n: nat)
    requires n < |events|
    ensures var m, m' := Run(events, n).invOfKey, Run(events, n + 1).invOfKey;
      && (forall k :: k in m ==> k in m' && m'[k] == m[k])
      && (forall k :: k in m' <==> k in m || k in EligibleAt(events, n))
      && (forall k :: k in m' && k !in m ==> m'[k] == Landed(events, n))
  {
    var eligible := EligibleAt(events, n);
    BindKeeps(Run(events, n).invOfKey, eligible, |eligible|, Landed(events, n));
    assert eligible[..|eligible|] == eligible;
  }

  /** A bound key is never rebound, however the run goes on. */
  lemma {:induction false} NeverRebound(events: seq<seq<Key>>, i: nat, j: nat, k: Key)
    requires i <= j <= |events|
    requires k in Run(events, i).invOfKey
    ensures k in Run(events, j).invOfKey
    ensures Run(events, j).invOfKey[k] == Run(events, i).invOfKey[k]
    decreases j
  {
    hide Run, EligibleAt, Landed;
    if i < j {
      NeverRebound(events, i, j - 1, k);
      StepBindings(events, j - 1);
    }
  }

  /** A bound key points to an investigation in which an earlier event, eligible under that key, landed. */
  lemma {:induction false} BoundByAnEarlierEvent(events: seq<seq<Key>>, n: nat, k: Key) returns (i: nat)
    requires n <= |events| && k in Run(events, n).invOfKey
    ensures i < n && k in EligibleAt(events, i) && Landed(events, i) == Run(events, n).invOfKey[k]
  {
    StepBindings(events, n - 1);
    if k in Run(events, n - 1).invOfKey {
      i := BoundByAnEarlierEvent(events, n - 1, k);
    } else {
      i := n - 1;
    }
  }

  /** Once an event was eligible under a key, the key is bound for good. */
  lemma {:induction false} EligibleEarlierIsBound(events: seq<seq<Key>>, i: nat, n: nat, k: Key)
    requires i < n <= |events| && k in EligibleAt(events, i)
    ensures k in Run(events, n).invOfKey
  {
    StepBindings(events, i);
    NeverRebound(events, i + 1, n, k);
  }

  /** Event i shares an eligible key with an earlier event. */
  ghost predicate SharesEarlier(events: seq<seq<Key>>, i: nat)
    requires i < |events|
  {
    exists j, k :: 0 <= j < i && k in EligibleAt(events, i) && k in EligibleAt(events, j)
  }

  /** Event i founds a new investigation if and only if no earlier event was eligible under a key
      that event i is eligible under. */
  lemma {:induction false} FoundsIffNothingShared(events: seq<seq<Key>>, i: nat)
    requires i < |events|
    ensures Run(events, i + 1).nextInv == Run(events, i).nextInv + (if SharesEarlier(events, i) then 0 else 1)
    ensures !SharesEarlier(events, i) ==> Landed(events, i) == Run(events, i).nextInv
  {
    var m := Run(events, i).invOfKey;
    FirstBoundIsBound(m, EligibleAt(events, i));
    if SharesEarlier(events, i) {
      var j, k :| 0 <= j < i && k in EligibleAt(events, i) && k in EligibleAt(events, j);
      EligibleEarlierIsBound(events, j, i, k);
    } else if FirstBound(m, EligibleAt(events, i)).Some? {
      var k := FirstBoundKey(m, EligibleAt(events, i));
      var j := BoundByAnEarlierEvent(events, i, k);
    }
  }

  /** Every event that does not found its investigation shares an eligible key with an earlier event
      of that same investigation. */
  lemma {:induction false} JoinsThroughSharedKey(events: seq<seq<Key>>, i: nat) returns (j: nat, k: Key)
    requires i < |events|
    requires Run(events, i + 1).nextInv == Run(events, i).nextInv
    ensures j < i && Landed(events, j) == Landed(events, i)
    ensures k in EligibleAt(events, j) && k in EligibleAt(events, i)
  {
    var m := Run(events, i).invOfKey;
    k := FirstBoundKey(m, EligibleAt(events, i));
    j := BoundByAnEarlierEvent(events, i, k);
  }

  // ----- every event is counted in exactly one investigation

  function SumRows(rows: map<nat, nat>, n: nat): nat {
    if n == 0 then 0 else SumRows(rows, n - 1) + Seen(rows, n - 1)
  }

  lemma {:induction false} SumRowsBump(rows: map<nat, nat>, n: nat, i: nat)
    ensures SumRows(Bump(rows, i), n) == SumRows(rows, n) + (if i < n then 1 else 0)
  {
    if n > 0 {
      SumRowsBump(rows, n - 1, i);
    }
  }

  /** How many of the first n events landed in investigation `inv`. */
  function LandedCount(events: seq<seq<Key>>, n: nat, inv: nat): nat
    requires n <= |events|
  {
    if n == 0 then 0
    else LandedCount(events, n - 1, inv) + (if Landed(events, n - 1) == inv then 1 else 0)
  }

  /** What one event does to the rows: the investigation it lands in, perhaps new, gains one. */
  lemma {:induction false} StepRows(events: seq<seq<Key>>, n: nat)
    requires n < |events|
    ensures Run(events, n + 1).invRows == Bump(Run(events, n).invRows, Landed(events, n))
    ensures Run(events, n + 1).nextInv == Run(events, n).nextInv
            + (if Landed(events, n) == Run(events, n).nextInv then 1 else 0)
    ensures Landed(events, n) <= Run(events, n).nextInv
  {
    LandsInAnInvestigation(events, n);
  }

  /** Bindings only ever name investigations that exist. */
  lemma {:induction false} BindingsExist(events: seq<seq<Key>>, n: nat, k: Key)
    requires n <= |events| && k in Run(events, n).invOfKey
    ensures Run(events, n).invOfKey[k] < Run(events, n).nextInv
  {
    StepBindings(events, n - 1);
    if k in Run(events, n - 1).invOfKey {
      BindingsExist(events, n - 1, k);
    } else {
      if FirstBound(Run(events, n - 1).invOfKey, EligibleAt(events, n - 1)).Some? {
        var l := FirstBoundKey(Run(events, n - 1).invOfKey, EligibleAt(events, n - 1));
        BindingsExist(events, n - 1, l);
      }
    }
  }

  lemma {:induction false} LandsInAnInvestigation(events: seq<seq<Key>>, n: nat)
    requires n < |events|
    ensures Landed(events, n) == Run(events, n).nextInv
       <==> FirstBound(Run(events, n).invOfKey, EligibleAt(events, n)) == None
    ensures Landed(events, n) <= Run(events, n).nextInv
  {
    var m := Run(events, n).invOfKey;
    if FirstBound(m, EligibleAt(events, n)).Some? {
      var k := FirstBoundKey(m, EligibleAt(events, n));
      BindingsExist(events, n, k);
    }
  }

  lemma {:induction false} RunStart(events: seq<seq<Key>>)
    ensures Run(events, 0) == State(map[], map[], map[], map[], 0)
  {
  }

  /** Each event lands in exactly one existing investigation: an investigation's row count is the
      number of events that landed in it and is never 0. */
  lemma {:induction false} RowsCountEvents(events: seq<seq<Key>>, n: nat, inv: nat)
    requires n <= |events|
    ensures inv in Run(events, n).invRows <==> inv < Run(events, n).nextInv
    ensures Seen(Run(events, n).invRows, inv) == LandedCount(events, n, inv)
    ensures inv < Run(events, n).nextInv <==> LandedCount(events, n, inv) > 0
  {
    hide Run, EligibleAt, Landed;
    if n == 0 {
      RunStart(events);
    } else {
      RowsCountEvents(events, n - 1, inv);
      StepRows(events, n - 1);
    }
  }

  /** The keys of an investigation are exactly those under which the events that landed in it were eligible. */
  lemma {:induction false} KeysOfInvestigation(events: seq<seq<Key>>, n: nat, inv: nat, k: Key)
    requires n <= |events|
    ensures inv in Run(events, n).invKeys && k in Run(events, n).invKeys[inv]
       <==> exists i :: 0 <= i < n && Landed(events, i) == inv && k in EligibleAt(events, i)
  {
    hide Run, EligibleAt, Landed;
    RunStart(events);
    if n > 0 {
      KeysOfInvestigation(events, n - 1, inv, k);
      StepKeys(events, n - 1);
      if i :| 0 <= i < n && Landed(events, i) == inv && k in EligibleAt(events, i) {
        assert i < n - 1 || i == n - 1;
      }
    }
  }

  lemma {:induction false} StepKeys(events: seq<seq<Key>>, n: nat)
    requires n < |events|
    ensures var m, m', inv := Run(events, n).invKeys, Run(events, n + 1).invKeys, Landed(events, n);
      && m'.Keys == m.Keys + {inv}
      && (forall i :: i in m && i != inv ==> m'[i] == m[i])
      && forall k :: k in m'[inv] <==> (inv in m && k in m[inv]) || k in EligibleAt(events, n)
  {
    hide EligibleAt, Sight;
  }

  /** The rows of all investigations sum to the number of events. */
  lemma {:induction false} RowsSumToEvents(events: seq<seq<Key>>, n: nat)
    requires n <= |events|
    ensures SumRows(Run(events, n).invRows, Run(events, n).nextInv) == n
  {
    hide Run, EligibleAt, Landed;
    if n == 0 {
      RunStart(events);
    } else {
      RowsSumToEvents(events, n - 1);
      StepRows(events, n - 1);
      SumRowsBump(Run(events, n - 1).invRows, Run(events, n).nextInv, Landed(events, n - 1));
      RowsCountEvents(events, n - 1, Run(events, n - 1).nextInv);
    }
  }

  // ----- weak keys never attach, hubs stop attaching

  function Count(keys: seq<Key>, n: nat, k: Key): nat
    requires n <= |keys|
  {
    if n == 0 then 0 else Count(keys, n - 1, k) + (if keys[n - 1] == k then 1 else 0)
  }

  /** How often `k` was sighted, and how often it was eligible, in the first n events. */
  function Sighted(events: seq<seq<Key>>, n: nat, k: Key): nat
    requires n <= |events|
  {
    if n == 0 then 0 else Sighted(events, n - 1, k) + Count(events[n - 1], |events[n - 1]|, k)
  }

  function TimesEligible(events: seq<seq<Key>>, n: nat, k: Key): nat
    requires n <= |events|
  {
    if n == 0 then 0
    else TimesEligible(events, n - 1, k) + Count(EligibleAt(events, n - 1), |EligibleAt(events, n - 1)|, k)
  }

  /** How many of the first `seen` sightings of a key are eligible. */
  function Budget(k: Key, seen: nat): nat {
    match StrengthOf(k.kt)
    case Strong => seen
    case Conditional => if seen <= HUB_THRESHOLD then seen else HUB_THRESHOLD
    case Weak => 0
  }

  lemma {:induction false} CountPrefix(a: seq<Key>, b: seq<Key>, n: nat, k: Key)
    requires n <= |a|
    ensures Count(a + b, n, k) == Count(a, n, k)
  {
    if n > 0 {
      CountPrefix(a, b, n - 1, k);
    }
  }

  /** One sighting spends the budget of its key exactly when it makes the key eligible. */
  lemma {:induction false} SightingSpends(k: Key, seen: nat)
    ensures Budget(k, seen + 1) == Budget(k, seen) + (if Attaches(k, seen + 1) then 1 else 0)
  {
  }

  lemma {:induction false} CountAppend(keys: seq<Key>, last: Key, k: Key)
    ensures Count(keys + [last], |keys| + 1, k) == Count(keys, |keys|, k) + (if last == k then 1 else 0)
  {
    CountPrefix(keys, [last], |keys|, k);
  }

  lemma {:induction false} OneEventBudget(s: map<Key, nat>, keys: seq<Key>, n: nat, k: Key)
    requires n <= |keys|
    ensures Seen(Sight(s, keys, n), k) == Seen(s, k) + Count(keys, n, k)
    ensures Count(Eligible(s, keys, n), |Eligible(s, keys, n)|, k)
         == Budget(k, Seen(s, k) + Count(keys, n, k)) - Budget(k, Seen(s, k))
  {
    hide Budget, Attaches;
    if n > 0 {
      OneEventBudget(s, keys, n - 1, k);
      CountAppend(Eligible(s, keys, n - 1), keys[n - 1], k);
      SightingSpends(k, Seen(s, k) + Count(keys, n - 1, k));
      assert Eligible(s, keys, n - 1) + [] == Eligible(s, keys, n - 1);
    }
  }

  /** Over any run: a weak key is never eligible, a strong key always is, and a conditional key is
      eligible exactly for its first `HUB_THRESHOLD` sightings. */
  lemma {:induction false} HubDemotion(events: seq<seq<Key>>, n: nat, k: Key)
    requires n <= |events|
    ensures Seen(Run(events, n).sightings, k) == Sighted(events, n, k)
    ensures TimesEligible(events, n, k) == Budget(k, Sighted(events, n, k))
  {
    if n > 0 {
      HubDemotion(events, n - 1, k);
      OneEventBudget(Run(events, n - 1).sightings, events[n - 1], |events[n - 1]|, k);
    }
  }

  /** An event is eligible under exactly the host names and hashes it lists, and the addresses and domains that were
      sighted less than 200 times before it; never under a user, process, port, rule or other key. */
  lemma {:induction false} EligibleIff(events: seq<seq<Key>>, i: nat, k: Key)
    requires i < |events|
    ensures k in EligibleAt(events, i)
       <==> && k in events[i]
            && (k.kt.Host? || k.kt.Hash? || ((k.kt.Ip? || k.kt.Domain?) && Sighted(events, i, k) < 200))
  {
    HubDemotion(events, i, k);
    EligibleKeys(Run(events, i).sightings, events[i], |events[i]|, k);
    assert events[i][..|events[i]|] == events[i];
  }

  lemma {:induction false} EligibleKeys(s: map<Key, nat>, keys: seq<Key>, n: nat, k: Key)
    requires n <= |keys|
    ensures k in Eligible(s, keys, n)
       <==> k in keys[..n] && (k.kt.Host? || k.kt.Hash? || ((k.kt.Ip? || k.kt.Domain?) && Seen(s, k) < 200))
  {
    if n > 0 {
      EligibleKeys(s, keys, n - 1, k);
      assert keys[..n] == keys[..n - 1] + [keys[n - 1]];
      if keys[n - 1] == k {
        OneEventBudget(s, keys, n, k);
        if k !in keys[..n - 1] {
          NotMemberNotCounted(keys, n - 1, k);
        }
      }
      hide Sight;
    }
  }

  lemma {:induction false} NotMemberNotCounted(keys: seq<Key>, n: nat, k: Key)
    requires n <= |keys| && k !in keys[..n]
    ensures Count(keys, n, k) == 0
  {
    if n > 0 {
      assert keys[..n] == keys[..n - 1] + [keys[n - 1]];
      NotMemberNotCounted(keys, n - 1, k);
    }
  }

  lemma {:induction false} MemberIsCounted(keys: seq<Key>, n: nat, k: Key)
    requires n <= |keys| && k in keys[..n]
    ensures Count(keys, n, k) > 0
  {
    if keys[n - 1] != k {
      assert keys[..n] == keys[..n - 1] + [keys[n - 1]];
      MemberIsCounted(keys, n - 1, k);
    }
  }

  lemma {:induction false} EligibleIsCounted(events: seq<seq<Key>>, n: nat, i: nat, k: Key)
    requires i < n <= |events| && k in EligibleAt(events, i)
    ensures TimesEligible(events, n, k) > 0
  {
    var eligible := EligibleAt(events, i);
    if i == n - 1 {
      assert eligible[..|eligible|] == eligible;
      MemberIsCounted(eligible, |eligible|, k);
    } else {
      EligibleIsCounted(events, n - 1, i, k);
    }
  }

  /** No weak key is ever bound to an investigation. */
  lemma {:induction false} WeakNeverBinds(events: seq<seq<Key>>, n: nat, k: Key)
    requires n <= |events| && StrengthOf(k.kt) == Weak
    ensures k !in Run(events, n).invOfKey
  {
    HubDemotion(events, n, k);
    if k in Run(events, n).invOfKey {
      var i := BoundByAnEarlierEvent(events, n, k);
      EligibleIsCounted(events, n, i, k);
    }
  }

  // ----- "attaches to the oldest investigation" does not hold in general

  /** The oldest investigation among those the eligible keys are bound to. */
  ghost predicate IsOldest(invOfKey: map<Key, nat>, eligible: seq<Key>, inv: nat) {
    && (exists k :: k in eligible && k in invOfKey && invOfKey[k] == inv)
    && (forall k :: k in eligible && k in invOfKey ==> inv <= invOfKey[k])
  }

  ghost predicate BoundAlike(invOfKey: map<Key, nat>, eligible: seq<Key>) {
    forall k, l :: k in eligible && l in eligible && k in invOfKey && l in invOfKey ==> invOfKey[k] == invOfKey[l]
  }

  /** The same keys, listed with `eligible[i]` first. */
  function Listing(eligible: seq<Key>, i: nat): seq<Key>
    requires i < |eligible|
  {
    [eligible[i]] + eligible[..i] + eligible[i + 1..]
  }

  lemma {:induction false} ListingMembers(eligible: seq<Key>, i: nat)
    requires i < |eligible|
    ensures multiset(Listing(eligible, i)) == multiset(eligible)
    ensures forall k :: k in Listing(eligible, i) <==> k in eligible
  {
    assert eligible == eligible[..i] + [eligible[i]] + eligible[i + 1..];
  }

  /** The source says an alert attaches to the oldest open investigation that shares an eligible key.
      It attaches to the investigation of the first bound key.  The two agree, whichever of the event's
      keys comes first, if and only if its bound eligible keys all point to one investigation. */
  lemma {:induction false} OldestForEveryListing(invOfKey: map<Key, nat>, eligible: seq<Key>)
    requires exists k :: k in eligible && k in invOfKey
    ensures (forall i :: 0 <= i < |eligible| ==>
               var target := FirstBound(invOfKey, Listing(eligible, i));
               target.Some? && IsOldest(invOfKey, eligible, target.value))
       <==> BoundAlike(invOfKey, eligible)
  {
    if BoundAlike(invOfKey, eligible) {
      forall i | 0 <= i < |eligible|
        ensures FirstBound(invOfKey, Listing(eligible, i)).Some?
        ensures IsOldest(invOfKey, eligible, FirstBound(invOfKey, Listing(eligible, i)).value)
      {
        ListingMembers(eligible, i);
        FirstBoundIsBound(invOfKey, Listing(eligible, i));
      }
    } else {
      var k, l :| k in eligible && l in eligible && k in invOfKey && l in invOfKey && invOfKey[k] < invOfKey[l];
      var i :| 0 <= i < |eligible| && eligible[i] == l;
      assert FirstBound(invOfKey, Listing(eligible, i)) == Some(invOfKey[l]);
    }
  }

  // ----- the order the source extracts the keys in, over a run

  lemma {:induction false} FirstBoundAt(m: map<Key, nat>, keys: seq<Key>) returns (p: nat)
    requires FirstBound(m, keys).Some?
    ensures p < |keys| && keys[p] in m && m[keys[p]] == FirstBound(m, keys).value
    ensures forall q :: 0 <= q < p ==> keys[q] !in m
  {
    if keys[0] in m {
      p := 0;
    } else {
      var r := FirstBoundAt(m, keys[1..]);
      p := r + 1;
      forall q | 0 <= q < p ensures keys[q] !in m {
        assert q > 0 ==> keys[q] == keys[1..][q - 1];
      }
    }
  }

  ghost predicate Shares(events: seq<seq<Key>>, j: nat, i: nat)
    requires j < |events| && i < |events|
  {
    exists k :: k in EligibleAt(events, j) && k in EligibleAt(events, i)
  }

  /** Event f leads event i: of the keys of event i that any earlier event was eligible under, the first one
      listed is at p, and event f was the first eligible under it. */
  ghost predicate Leads(events: seq<seq<Key>>, f: nat, p: nat, i: nat)
    requires i < |events|
  {
    && f < i && p < |EligibleAt(events, i)| && EligibleAt(events, i)[p] in EligibleAt(events, f)
    && (forall j :: 0 <= j < f ==> EligibleAt(events, i)[p] !in EligibleAt(events, j))
    && (forall q, j :: 0 <= q < p && 0 <= j < i ==> EligibleAt(events, i)[q] !in EligibleAt(events, j))
  }

  /** A key is bound to the investigation of the first event that was eligible under it. */
  lemma {:induction false} FirstEligible(events: seq<seq<Key>>, n: nat, k: Key) returns (f: nat)
    requires n <= |events| && k in Run(events, n).invOfKey
    ensures f < n && k in EligibleAt(events, f) && forall j :: 0 <= j < f ==> k !in EligibleAt(events, j)
  {
    hide Run, EligibleAt, Landed;
    RunStart(events);
    StepBindings(events, n - 1);
    if k in Run(events, n - 1).invOfKey {
      f := FirstEligible(events, n - 1, k);
    } else {
      f := n - 1;
      forall j | 0 <= j < f ensures k !in EligibleAt(events, j) {
        if k in EligibleAt(events, j) {
          EligibleEarlierIsBound(events, j, n - 1, k);
        }
      }
    }
  }

  lemma {:induction false} UnseenIsUnbound(events: seq<seq<Key>>, n: nat, k: Key)
    requires n <= |events| && forall j :: 0 <= j < n ==> k !in EligibleAt(events, j)
    ensures k !in Run(events, n).invOfKey
  {
    if k in Run(events, n).invOfKey {
      var j := BoundByAnEarlierEvent(events, n, k);
    }
  }

  lemma {:induction false} LeaderExists(events: seq<seq<Key>>, i: nat) returns (f: nat, p: nat)
    requires i < |events| && SharesEarlier(events, i)
    ensures Leads(events, f, p, i)
  {
    var m, eligible := Run(events, i).invOfKey, EligibleAt(events, i);
    hide Run, EligibleAt, FirstBound;
    var j, k :| 0 <= j < i && k in EligibleAt(events, i) && k in EligibleAt(events, j);
    EligibleEarlierIsBound(events, j, i, k);
    FirstBoundIsBound(m, eligible);
    p := FirstBoundAt(m, eligible);
    f := FirstEligible(events, i, eligible[p]);
    forall q, j | 0 <= q < p && 0 <= j < i ensures eligible[q] !in EligibleAt(events, j) {
      if eligible[q] in EligibleAt(events, j) {
        EligibleEarlierIsBound(events, j, i, eligible[q]);
      }
    }
  }

  /** An event lands with its leader. */
  lemma {:induction false} LandsWithItsLeader(events: seq<seq<Key>>, f: nat, p: nat, i: nat)
    requires i < |events| && Leads(events, f, p, i)
    ensures Landed(events, i) == Landed(events, f)
  {
    var m, eligible := Run(events, i).invOfKey, EligibleAt(events, i);
    LandsAtFirstBound(events, i);
    hide Run, EligibleAt, FirstBound, Landed;
    var k := eligible[p];
    UnseenIsUnbound(events, f, k);
    StepBindings(events, f);
    NeverRebound(events, f + 1, i, k);
    FirstBoundIsBound(m, eligible);
    var r := FirstBoundAt(m, eligible);
    if r < p {
      UnseenIsUnbound(events, i, eligible[r]);
    }
  }

  lemma {:induction false} LandsAtFirstBound(events: seq<seq<Key>>, i: nat)
    requires i < |events|
    ensures var found := FirstBound(Run(events, i).invOfKey, EligibleAt(events, i));
      found.Some? ==> Landed(events, i) == found.value
  {
  }

  /** The oldest of the investigations that the first n events, landed as told, share a key of event i with. */
  ghost function OldestSharer(events: seq<seq<Key>>, landings: seq<nat>, n: nat, i: nat): Option<nat>
    requires n <= |landings| && n <= i < |events|
  {
    if n == 0 then None
    else
      var before := OldestSharer(events, landings, n - 1, i);
      if !Shares(events, n - 1, i) then before
      else Some(if before.Some? && before.value < landings[n - 1] then before.value else landings[n - 1])
  }

  /** The number of the next new investigation. */
  function Unused(landings: seq<nat>): nat {
    if landings == [] then 0
    else
      var before, last := Unused(landings[..|landings| - 1]), landings[|landings| - 1];
      if before > last then before else last + 1
  }

  /** The rule as stated: an event attaches to the oldest investigation that shares an eligible key with it,
      and founds one if there is none. */
  ghost function Stated(events: seq<seq<Key>>, n: nat): (landings: seq<nat>)
    requires n <= |events|
    ensures |landings| == n
  {
    if n == 0 then []
    else
      var before := Stated(events, n - 1);
      var oldest := OldestSharer(events, before, n - 1, n - 1);
      before + [if oldest.Some? then oldest.value else Unused(before)]
  }

  function Landings(events: seq<seq<Key>>, n: nat): seq<nat>
    requires n <= |events|
  {
    seq(n, i requires 0 <= i < n => Landed(events, i))
  }

  /** No event that shares a key with event i landed in an older investigation than the leader of event i. */
  ghost predicate LeaderIsOldest(events: seq<seq<Key>>, i: nat)
    requires i < |events|
  {
    forall f, p, j :: Leads(events, f, p, i) && 0 <= j < i && Shares(events, j, i)
                      ==> Landed(events, f) <= Landed(events, j)
  }

  lemma {:induction false} OldestSharerIsLeast(events: seq<seq<Key>>, landings: seq<nat>, n: nat, i: nat)
    requires n <= |landings| && n <= i < |events|
    ensures var oldest := OldestSharer(events, landings, n, i);
      && (oldest == None <==> forall j :: 0 <= j < n ==> !Shares(events, j, i))
      && (oldest.Some? ==> exists j :: 0 <= j < n && Shares(events, j, i) && landings[j] == oldest.value)
      && (oldest.Some? ==> forall j :: 0 <= j < n && Shares(events, j, i) ==> oldest.value <= landings[j])
  {
    hide Shares;
    if n > 0 {
      OldestSharerIsLeast(events, landings, n - 1, i);
    }
  }

  lemma {:induction false} UnusedIsNext(events: seq<seq<Key>>, n: nat)
    requires n <= |events|
    ensures Unused(Landings(events, n)) == Run(events, n).nextInv
  {
    if n == 0 {
      RunStart(events);
    } else {
      UnusedIsNext(events, n - 1);
      StepRows(events, n - 1);
      hide Run, Landed;
      assert Landings(events, n)[..n - 1] == Landings(events, n - 1);
    }
  }

  lemma {:induction false} SharesEarlierIff(events: seq<seq<Key>>, i: nat)
    requires i < |events|
    ensures SharesEarlier(events, i) <==> exists j :: 0 <= j < i && Shares(events, j, i)
  {
    hide EligibleAt;
    if SharesEarlier(events, i) {
      var j, k :| 0 <= j < i && k in EligibleAt(events, i) && k in EligibleAt(events, j);
      assert Shares(events, j, i);
    }
    if j :| 0 <= j < i && Shares(events, j, i) {
      var k :| k in EligibleAt(events, j) && k in EligibleAt(events, i);
    }
  }

  lemma {:induction false} LeaderIsOldestIff(events: seq<seq<Key>>, i: nat)
    requires i < |events|
    ensures LeaderIsOldest(events, i)
       <==> forall j :: 0 <= j < i && Shares(events, j, i) ==> Landed(events, i) <= Landed(events, j)
  {
    SharesEarlierIff(events, i);
    hide Run, EligibleAt, Landed, Leads, Shares, SharesEarlier;
    if SharesEarlier(events, i) {
      var f, p := LeaderExists(events, i);
    }
    forall f, p | Leads(events, f, p, i) ensures Landed(events, f) == Landed(events, i) {
      LandsWithItsLeader(events, f, p, i);
    }
  }

  /** What event i lands in is the investigation of an earlier event that shares a key, or a new one. */
  lemma {:induction false} LandsWithASharer(events: seq<seq<Key>>, i: nat)
    requires i < |events|
    ensures (exists j :: 0 <= j < i && Shares(events, j, i))
            ==> exists j :: 0 <= j < i && Shares(events, j, i) && Landed(events, j) == Landed(events, i)
    ensures (exists j :: 0 <= j < i && Shares(events, j, i)) || Landed(events, i) == Unused(Landings(events, i))
  {
    SharesEarlierIff(events, i);
    FoundsIffNothingShared(events, i);
    UnusedIsNext(events, i);
    hide Run, EligibleAt, Landed, Leads, Shares, SharesEarlier, Unused;
    if SharesEarlier(events, i) {
      var f, p := LeaderExists(events, i);
      LandsWithItsLeader(events, f, p, i);
      LeaderShares(events, f, p, i);
    }
  }

  /** One event lands where the rule says exactly when its leader is in the oldest investigation. */
  lemma {:induction false} OldestForThisListing(events: seq<seq<Key>>, i: nat)
    requires i < |events|
    ensures var oldest := OldestSharer(events, Landings(events, i), i, i);
      Landed(events, i) == (if oldest.Some? then oldest.value else Unused(Landings(events, i)))
      <==> LeaderIsOldest(events, i)
  {
    hide Run, EligibleAt, Landed, OldestSharer, Unused, Leads, Shares, LeaderIsOldest;
    OldestSharerIsLeast(events, Landings(events, i), i, i);
    LeaderIsOldestIff(events, i);
    LandsWithASharer(events, i);
  }

  lemma {:induction false} LeaderShares(events: seq<seq<Key>>, f: nat, p: nat, i: nat)
    requires i < |events| && Leads(events, f, p, i)
    ensures Shares(events, f, i)
  {
  }

  lemma {:induction false} StatedIff(events: seq<seq<Key>>, n: nat)
    requires n <= |events|
    ensures Stated(events, n) == Landings(events, n) <==> forall i :: 0 <= i < n ==> LeaderIsOldest(events, i)
  {
    hide Run, EligibleAt, Landed, OldestSharer, Unused, LeaderIsOldest;
    if n > 0 {
      StatedIff(events, n - 1);
      OldestForThisListing(events, n - 1);
      var stated, landings := Stated(events, n), Landings(events, n);
      assert stated[..n - 1] == Stated(events, n - 1) && landings[..n - 1] == Landings(events, n - 1);
      assert stated == stated[..n - 1] + [stated[n - 1]] && landings == landings[..n - 1] + [landings[n - 1]];
    }
  }

  /** Over a whole run, every event attaches to the oldest investigation that shares an eligible key with it exactly
      when each event's leader, the first event under the first key it lists that was seen, landed in no
      newer investigation than any other earlier event it shares a key with. */
  lemma {:induction false} FollowsStatedRuleIff(events: seq<seq<Key>>)
    ensures (forall i :: 0 <= i < |events| ==> Landed(events, i) == Stated(events, |events|)[i])
       <==> (forall i :: 0 <= i < |events| ==> LeaderIsOldest(events, i))
  {
    StatedIff(events, |events|);
    hide Run, EligibleAt, Landed, Stated, LeaderIsOldest;
    if forall i :: 0 <= i < |events| ==> Landed(events, i) == Stated(events, |events|)[i] {
      assert Stated(events, |events|) == Landings(events, |events|);
    }
  }

  /** Whenever two events share an eligible key, they share the investigation. */
  ghost predicate SharersTogether(events: seq<seq<Key>>) {
    forall i, j, k :: 0 <= j < i < |events| && k in EligibleAt(events, j) && k in EligibleAt(events, i)
                      ==> Landed(events, j) == Landed(events, i)
  }

  /** No event's keys are bound to two investigations. */
  ghost predicate NeverBridges(events: seq<seq<Key>>) {
    forall i :: 0 <= i < |events| ==> BoundAlike(Run(events, i).invOfKey, EligibleAt(events, i))
  }

  lemma {:induction false} LandsWithItsKey(events: seq<seq<Key>>, i: nat, k: Key)
    requires i < |events| && BoundAlike(Run(events, i).invOfKey, EligibleAt(events, i)) && k in EligibleAt(events, i)
    ensures k in Run(events, i).invOfKey ==> Landed(events, i) == Run(events, i).invOfKey[k]
    ensures k in Run(events, i + 1).invOfKey && Run(events, i + 1).invOfKey[k] == Landed(events, i)
  {
    FirstBoundIsBound(Run(events, i).invOfKey, EligibleAt(events, i));
    StepBindings(events, i);
    hide Run, EligibleAt, FirstBound;
  }

  /** Over a whole run, sharing an eligible key means sharing an investigation exactly when no event bridges two
      investigations: an event that does leaves some earlier sharer behind, whichever it joins. */
  lemma {:induction false} SharersTogetherIff(events: seq<seq<Key>>)
    ensures SharersTogether(events) <==> NeverBridges(events)
  {
    hide Run, EligibleAt, Landed, BoundAlike;
    if NeverBridges(events) {
      forall i, j, k | 0 <= j < i < |events| && k in EligibleAt(events, j) && k in EligibleAt(events, i)
        ensures Landed(events, j) == Landed(events, i)
      {
        LandsWithItsKey(events, j, k);
        NeverRebound(events, j + 1, i, k);
        LandsWithItsKey(events, i, k);
      }
    }
    if SharersTogether(events) {
      forall i | 0 <= i < |events| ensures BoundAlike(Run(events, i).invOfKey, EligibleAt(events, i)) {
        TogetherMeansAlike(events, i);
      }
    }
  }

  lemma {:induction false} TogetherMeansAlike(events: seq<seq<Key>>, i: nat)
    requires SharersTogether(events) && i < |events|
    ensures BoundAlike(Run(events, i).invOfKey, EligibleAt(events, i))
  {
    hide Run, EligibleAt, Landed;
    forall k | k in EligibleAt(events, i) && k in Run(events, i).invOfKey
      ensures Run(events, i).invOfKey[k] == Landed(events, i)
    {
      var j := BoundByAnEarlierEvent(events, i, k);
    }
  }

  /** Strong keys are always eligible, here for events of one and of two host keys. */
  lemma {:induction false} HostKeysAreEligible(events: seq<seq<Key>>, i: nat, k: Key)
    requires i < |events| && k.kt == Host
    ensures events[i] == [k] ==> EligibleAt(events, i) == [k]
    ensures forall l: Key :: l.kt == Host && events[i] == [k, l] ==> EligibleAt(events, i) == [k, l]
  {
    hide Run;
    var s := Run(events, i).sightings;
    assert events[i] == [k] ==> Eligible(s, events[i], 0) == [];
    forall l: Key | l.kt == Host && events[i] == [k, l]
      ensures Eligible(s, events[i], 2) == [k, l]
    {
      assert Eligible(s, events[i], 0) == [];
      assert Eligible(s, events[i], 1) == [k];
    }
  }

  /** Three events: the third shares its first key with the newer investigation and its second with
      the older one, and joins the newer. */
  lemma {:induction false} NotAlwaysTheOldest() returns (events: seq<seq<Key>>)
    ensures |events| == 3
    ensures !IsOldest(Run(events, 2).invOfKey, EligibleAt(events, 2), Landed(events, 2))
  {
    var a, b := Key(Host, "a"), Key(Host, "b");
    events := [[a], [b], [b, a]];
    ExampleBindings(events, a, b);
    HostKeysAreEligible(events, 2, b);
    assert a in EligibleAt(events, 2);
    assert FirstBound(Run(events, 2).invOfKey, [b, a]) == Some(1);
    assert Landed(events, 2) == 1;
  }

  lemma {:induction false} FourLandings(events: seq<seq<Key>>, a: Key, b: Key)
    requires |events| == 4 && a != b && EligibleAt(events, 0) == [a] && EligibleAt(events, 1) == [b]
    requires EligibleAt(events, 2) == [a, b] && EligibleAt(events, 3) == [b]
    ensures Landed(events, 0) == Landed(events, 2) == 0 && Landed(events, 1) == Landed(events, 3) == 1
  {
    hide Run, EligibleAt, Landed;
    RunStart(events);
    FoundsIffNothingShared(events, 0);
    FoundsIffNothingShared(events, 1);
    LandsWithItsLeader(events, 0, 0, 2);
    LandsWithItsLeader(events, 1, 0, 3);
  }

  /** Four events: the third joins the oldest investigation with the keys of both, so that the older one holds the
      second key, too.  The fourth, with that key alone, still joins the newer one. */
  lemma {:induction false} SingleKeyMissesTheOldest() returns (events: seq<seq<Key>>)
    ensures |events| == 4 && |events[3]| == 1 && Shares(events, 2, 3)
    ensures Landed(events, 2) == 0 && Landed(events, 3) == 1
    ensures (forall i :: 0 <= i < 3 ==> LeaderIsOldest(events, i)) && !LeaderIsOldest(events, 3)
  {
    var a, b := Key(Host, "a"), Key(Host, "b");
    events := [[a], [b], [a, b], [b]];
    hide Run, EligibleAt, Landed, LeaderIsOldest;
    HostKeysAreEligible(events, 0, a);
    HostKeysAreEligible(events, 1, b);
    HostKeysAreEligible(events, 2, a);
    HostKeysAreEligible(events, 3, b);
    FourLandings(events, a, b);
    assert b in EligibleAt(events, 2) && b in EligibleAt(events, 3);
    assert !Shares(events, 0, 1);
    forall i | 0 <= i < 4 ensures LeaderIsOldest(events, i) <==> i < 3 {
      LeaderIsOldestIff(events, i);
    }
  }

  lemma {:induction false} ExampleBindings(events: seq<seq<Key>>, a: Key, b: Key)
    requires a.kt == b.kt == Host && a != b
    requires |events| == 3 && events[0] == [a] && events[1] == [b]
    ensures Run(events, 2).invOfKey == map[a := 0, b := 1]
  {
    hide Run, EligibleAt, Landed;
    RunStart(events);
    HostKeysAreEligible(events, 0, a);
    HostKeysAreEligible(events, 1, b);
    StepBindings(events, 0);
    StepBindings(events, 1);
    StepRows(events, 0);
    FirstBoundIsBound(Run(events, 0).invOfKey, [a]);
    FirstBoundIsBound(Run(events, 1).invOfKey, [b]);
    LandsInAnInvestigation(events, 0);
    LandsInAnInvestigation(events, 1);
  }
}
