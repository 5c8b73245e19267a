/**
 The balanced sampler of bench/goldens_to_triage.py.

 `gold` lists the gold cases in id order.  Each case that is not a paraphrase belongs to
 the bucket of its (decision, flipped dimension) key; `RoundRobin` takes one case per
 bucket and round until it has enough.  `keys` is any listing of the bucket keys, so the
 results hold for the ordering the source sorts them into.
 */
module CherryPick {
  import opened Wrappers

  datatype Gold<Id, Key> = Gold(id: Id, key: Key, paraphrase: bool)

  ghost predicate DistinctIds<Id, Key>(gold: seq<Gold<Id, Key>>) {
    forall i, j :: 0 <= i < j < |gold| ==> gold[i].id != gold[j].id
  }

  /** The ids of the eligible cases of one key, in id order. */
  function Bucket<Id, Key(==)>(gold: seq<Gold<Id, Key>>, key: Key): seq<Id> {
    if gold == [] then []
    else
      var g := gold[|gold| - 1];
      Bucket(gold[..|gold| - 1], key) + (if !g.paraphrase && g.key == key then [g.id] else [])
  }

  function Eligible<Id, Key>(gold: seq<Gold<Id, Key>>): nat {
    if gold == [] then 0
    else
      Eligible(gold[..|gold| - 1]) + (if gold[|gold| - 1].paraphrase then 0 else 1)
  }

  lemma {:induction false} BucketGrows<Id, Key>(gold: seq<Gold<Id, Key>>, i: nat, key: Key)
    requires i < |gold|
    ensures Bucket(gold[..i + 1], key)
         == Bucket(gold[..i], key) + (if !gold[i].paraphrase && gold[i].key == key then [gold[i].id] else [])
  {
    assert gold[..i + 1][..i] == gold[..i];
  }

  /** The buckets of the first i cases. */
  ghost predicate Filled<Id, Key(!new)>(gold: seq<Gold<Id, Key>>, i: nat, buckets: map<Key, seq<Id>>)
    requires i <= |gold|
  {
    && (forall k :: k in buckets ==> buckets[k] == Bucket(gold[..i], k) && buckets[k] != [])
    && (forall k :: k !in buckets ==> Bucket(gold[..i], k) == [])
  }

  lemma {:induction false} FillOne<Id, Key(!new)>(gold: seq<Gold<Id, Key>>, i: nat, buckets: map<Key, seq<Id>>)
    requires i < |gold| && Filled(gold, i, buckets)
    ensures var g := gold[i];
      Filled(gold, i + 1, if g.paraphrase then buckets
                          else buckets[g.key := (if g.key in buckets then buckets[g.key] else []) + [g.id]])
  {
    hide Bucket;
    forall k {
      BucketGrows(gold, i, k);
    }
  }

  method FillBuckets<Id, Key(==, !new)>(gold: seq<Gold<Id, Key>>) returns (buckets: map<Key, seq<Id>>)
    ensures forall k :: k in buckets ==> buckets[k] == Bucket(gold, k) && buckets[k] != []
    ensures forall k :: k !in buckets ==> Bucket(gold, k) == []
  {
    buckets := map[];
    for i := 0 to |gold|
      invariant Filled(gold, i, buckets)
    {
      hide Filled;
      var g := gold[i];
      FillOne(gold, i, buckets);
      if !g.paraphrase {
        var sofar := if g.key in buckets then buckets[g.key] else [];
        buckets := buckets[g.key := sofar + [g.id]];
      }
    }
    assert gold[..|gold|] == gold;
  }

  // ----- facts about buckets

  lemma {:induction false} BucketMember<Id, Key>(gold: seq<Gold<Id, Key>>, key: Key, id: Id)
    ensures id in Bucket(gold, key)
       <==> exists g :: g in gold && !g.paraphrase && g.key == key && g.id == id
  {
    if gold != [] {
      var init, last := gold[..|gold| - 1], gold[|gold| - 1];
      BucketMember(init, key, id);
      assert gold == init + [last];
      assert forall g :: g in gold <==> g in init || g == last;
    }
  }

  lemma {:induction false} BucketDistinct<Id, Key>(gold: seq<Gold<Id, Key>>, key: Key)
    requires DistinctIds(gold)
    ensures Distinct(Bucket(gold, key))
  {
    if gold != [] {
      var init, last := gold[..|gold| - 1], gold[|gold| - 1];
      BucketDistinct(init, key);
      BucketMember(init, key, last.id);
    }
  }

  lemma {:induction false} BucketsDisjoint<Id, Key>(gold: seq<Gold<Id, Key>>, k: Key, l: Key, id: Id)
    requires DistinctIds(gold) && id in Bucket(gold, k) && id in Bucket(gold, l)
    ensures k == l
  {
    BucketMember(gold, k, id);
    BucketMember(gold, l, id);
  }

  /** The number of cases in the buckets of `keys`, counting `count[k]` for key k. */
  function Total<Key>(keys: seq<Key>, count: map<Key, nat>): nat
    requires forall k :: k in keys ==> k in count
  {
    if keys == [] then 0
    else Total(keys[..|keys| - 1], count) + count[keys[|keys| - 1]]
  }

  function Sizes<Id, Key(==)>(gold: seq<Gold<Id, Key>>, keys: seq<Key>): map<Key, nat> {
    map k | k in keys :: |Bucket(gold, k)|
  }

  lemma {:induction false} TotalSame<Key>(keys: seq<Key>, c: map<Key, nat>, d: map<Key, nat>)
    requires forall k :: k in keys ==> k in c && k in d && c[k] == d[k]
    ensures Total(keys, c) == Total(keys, d)
  {
    if keys != [] {
      TotalSame(keys[..|keys| - 1], c, d);
    }
  }

  lemma {:induction false} TotalBump<Key>(keys: seq<Key>, c: map<Key, nat>, key: Key)
    requires Distinct(keys) && key in keys && forall k :: k in keys ==> k in c
    ensures Total(keys, c[key := c[key] + 1]) == Total(keys, c) + 1
  {
    var init, last := keys[..|keys| - 1], keys[|keys| - 1];
    assert keys == init + [last];
    if key == last {
      TotalSame(init, c, c[key := c[key] + 1]);
    } else {
      TotalBump(init, c, key);
    }
  }

  lemma {:induction false} TotalZero<Key>(keys: seq<Key>, c: map<Key, nat>)
    requires forall k :: k in keys ==> k in c && c[k] == 0
    ensures Total(keys, c) == 0
  {
    if keys != [] {
      TotalZero(keys[..|keys| - 1], c);
    }
  }

  lemma {:induction false} SizesGrow<Id, Key>(gold: seq<Gold<Id, Key>>, keys: seq<Key>)
    requires gold != []
    ensures var init, last := gold[..|gold| - 1], gold[|gold| - 1];
      forall k :: k in keys ==>
        Sizes(gold, keys)[k] == Sizes(init, keys)[k] + (if !last.paraphrase && last.key == k then 1 else 0)
  {
  }

  lemma {:induction false} BucketsPartitionStep<Id, Key>(gold: seq<Gold<Id, Key>>, keys: seq<Key>)
    requires Distinct(keys) && gold != []
    requires !gold[|gold| - 1].paraphrase ==> gold[|gold| - 1].key in keys
    ensures var last := gold[|gold| - 1];
      Total(keys, Sizes(gold, keys)) == Total(keys, Sizes(gold[..|gold| - 1], keys))
          + (if last.paraphrase then 0 else 1)
  {
    SizesGrow(gold, keys);
    var last, before, after := gold[|gold| - 1], Sizes(gold[..|gold| - 1], keys), Sizes(gold, keys);
    assert forall k :: k in keys ==> k in before && k in after;
    hide Sizes, Total, Distinct;
    if last.paraphrase {
      TotalSame(keys, before, after);
    } else {
      TotalBump(keys, before, last.key);
      TotalSame(keys, before[last.key := before[last.key] + 1], after);
    }
  }

  /** Every eligible case is in exactly one bucket. */
  lemma {:induction false} BucketsPartition<Id, Key>(gold: seq<Gold<Id, Key>>, keys: seq<Key>)
    requires Distinct(keys)
    requires forall g :: g in gold && !g.paraphrase ==> g.key in keys
    ensures Total(keys, Sizes(gold, keys)) == Eligible(gold)
  {
    hide Total, Distinct;
    if gold == [] {
      TotalZero(keys, Sizes(gold, keys));
    } else {
      hide Sizes;
      BucketsPartition(gold[..|gold| - 1], keys);
      BucketsPartitionStep(gold, keys);
    }
  }

  // ----- the picker

  /** What of `picked` came out of one bucket, in the order it was picked. */
  function PickedOf<Id(==)>(picked: seq<Id>, bucket: seq<Id>): seq<Id> {
    if picked == [] then []
    else
      var last := picked[|picked| - 1];
      PickedOf(picked[..|picked| - 1], bucket) + (if last in bucket then [last] else [])
  }

  /** `picked` is a balanced sample of at most n cases: see `RoundRobin`. */
  ghost predicate TakenEvenly<Id, Key(!new)>(full: map<Key, seq<Id>>, taken: map<Key, nat>, round: nat) {
    && taken.Keys == full.Keys
    && forall k :: k in full ==> Min(round, |full[k]|) <= taken[k] <= Min(round + 1, |full[k]|)
  }

  ghost predicate OnlyFrom<Id, Key(!new)>(full: map<Key, seq<Id>>, picked: seq<Id>) {
    forall i :: 0 <= i < |picked| ==> exists k :: k in full && picked[i] in full[k]
  }

  /** What is left of each bucket is its untaken suffix, and what was picked from it its taken prefix. */
  ghost predicate Split<Id, Key(!new)>(full: map<Key, seq<Id>>, buckets: map<Key, seq<Id>>, taken: map<Key, nat>,
      picked: seq<Id>) {
    && buckets.Keys == taken.Keys == full.Keys
    && OnlyFrom(full, picked)
    && forall k :: k in full ==>
         && taken[k] <= |full[k]|
         && buckets[k] == full[k][taken[k]..]
         && PickedOf(picked, full[k]) == full[k][..taken[k]]
  }

  /** No id was picked twice, and none that is left was picked. */
  ghost predicate NoRepeat<Id, Key(!new)>(buckets: map<Key, seq<Id>>, picked: seq<Id>) {
    && Distinct(picked)
    && forall k, id :: k in buckets && id in buckets[k] ==> id !in picked
  }

  ghost predicate DisjointBuckets<Id(!new), Key(!new)>(full: map<Key, seq<Id>>) {
    && (forall k :: k in full ==> Distinct(full[k]))
    && forall k, l, id :: k in full && l in full && id in full[k] && id in full[l] ==> k == l
  }

  lemma {:induction false} PopKeepsSplit<Id(!new), Key(!new)>(full: map<Key, seq<Id>>, buckets: map<Key, seq<Id>>,
      taken: map<Key, nat>, picked: seq<Id>, k: Key)
    requires DisjointBuckets(full) && Split(full, buckets, taken, picked)
    requires k in full && buckets[k] != []
    ensures Split(full, buckets[k := buckets[k][1..]], taken[k := taken[k] + 1], picked + [buckets[k][0]])
  {
    var id := buckets[k][0];
    assert id == full[k][taken[k]];
    forall l | l in full
      ensures PickedOf(picked + [id], full[l]) == PickedOf(picked, full[l]) + (if l == k then [id] else [])
    {
      assert (picked + [id])[..|picked|] == picked;
      assert id in full[l] <==> l == k;
    }
    assert full[k][..taken[k] + 1] == full[k][..taken[k]] + [id];
    assert id in full[k];
  }

  lemma {:induction false} PopKeepsNoRepeat<Id(!new), Key(!new)>(full: map<Key, seq<Id>>, buckets: map<Key, seq<Id>>,
      taken: map<Key, nat>, picked: seq<Id>, k: Key)
    requires DisjointBuckets(full) && Split(full, buckets, taken, picked) && NoRepeat(buckets, picked)
    requires k in full && buckets[k] != []
    ensures NoRepeat(buckets[k := buckets[k][1..]], picked + [buckets[k][0]])
  {
    var id := buckets[k][0];
    assert id == full[k][taken[k]];
    hide PickedOf, OnlyFrom;
    var buckets' := buckets[k := buckets[k][1..]];
    assert id in buckets[k] && id !in picked;
    assert Distinct(picked + [id]);
    forall l, x | l in buckets' && x in buckets'[l] ensures x !in picked + [id] {
      assert id in full[k] && x in full[l];
      if l == k {
        var i :| 0 <= i < |buckets'[k]| && buckets'[k][i] == x;
        assert full[k][taken[k] + 1 + i] == x;
      }
    }
  }

  /** The keys in `done` had their turn in this round, the others not yet. */
  ghost predicate Visited<Id, Key(!new)>(full: map<Key, seq<Id>>, taken: map<Key, nat>, round: nat, done: seq<Key>)
    requires taken.Keys == full.Keys
  {
    forall k :: k in full ==> taken[k] == Min(if k in done then round + 1 else round, |full[k]|)
  }

  lemma {:induction false} VisitOne<Id, Key(!new)>(full: map<Key, seq<Id>>, buckets: map<Key, seq<Id>>,
      taken: map<Key, nat>, picked: seq<Id>, round: nat, done: seq<Key>, k: Key)
    requires Split(full, buckets, taken, picked) && Visited(full, taken, round, done)
    requires k in full && k !in done
    ensures Visited(full, if buckets[k] == [] then taken else taken[k := taken[k] + 1], round, done + [k])
    ensures buckets[k] == [] ==> |full[k]| <= round
  {
  }

  /** The round has visited the first j keys; `start` ids were picked before it. */
  ghost predicate MidRound<Id(!new), Key(!new)>(full: map<Key, seq<Id>>, keys: seq<Key>, n: int,
      buckets: map<Key, seq<Id>>, taken: map<Key, nat>, picked: seq<Id>, round: nat, start: nat, j: nat)
    requires forall k :: k in keys <==> k in full
  {
    && j <= |keys| && Split(full, buckets, taken, picked) && NoRepeat(buckets, picked)
    && start <= |picked| == Total(keys, taken) <= n
    && Visited(full, taken, round, keys[..j])
    && (|picked| == start ==> forall k :: k in keys[..j] ==> |full[k]| <= round)
  }

  lemma {:induction false} KeyIsNew<Key>(keys: seq<Key>, j: nat)
    requires Distinct(keys) && j < |keys|
    ensures keys[j] in keys && keys[j] !in keys[..j] && keys[..j + 1] == keys[..j] + [keys[j]]
  {
  }

  lemma {:induction false} SkipOne<Id(!new), Key(!new)>(full: map<Key, seq<Id>>, keys: seq<Key>, n: int,
      buckets: map<Key, seq<Id>>, taken: map<Key, nat>, picked: seq<Id>, round: nat, start: nat, j: nat)
    requires Distinct(keys) && forall k :: k in keys <==> k in full
    requires MidRound(full, keys, n, buckets, taken, picked, round, start, j)
    requires j < |keys| && keys[j] in buckets && buckets[keys[j]] == []
    ensures MidRound(full, keys, n, buckets, taken, picked, round, start, j + 1)
  {
    KeyIsNew(keys, j);
    VisitOne(full, buckets, taken, picked, round, keys[..j], keys[j]);
    hide Split, NoRepeat, Total, Visited, Distinct;
  }

  lemma {:induction false} PopOne<Id(!new), Key(!new)>(full: map<Key, seq<Id>>, keys: seq<Key>, n: int,
      buckets: map<Key, seq<Id>>, taken: map<Key, nat>, picked: seq<Id>, round: nat, start: nat, j: nat)
    requires Distinct(keys) && DisjointBuckets(full) && forall k :: k in keys <==> k in full
    requires MidRound(full, keys, n, buckets, taken, picked, round, start, j) && |picked| < n
    requires j < |keys| && keys[j] in buckets && buckets[keys[j]] != [] && keys[j] in taken
    ensures var k := keys[j];
      MidRound(full, keys, n, buckets[k := buckets[k][1..]], taken[k := taken[k] + 1], picked + [buckets[k][0]],
          round, start, j + 1)
  {
    var k := keys[j];
    KeyIsNew(keys, j);
    VisitOne(full, buckets, taken, picked, round, keys[..j], k);
    PopKeepsSplit(full, buckets, taken, picked, k);
    PopKeepsNoRepeat(full, buckets, taken, picked, k);
    TotalBump(keys, taken, k);
    hide NoRepeat, Total, Visited, Distinct, DisjointBuckets, PickedOf, OnlyFrom, Split;
  }

  lemma {:induction false} MidKeys<Id(!new), Key(!new)>(full: map<Key, seq<Id>>, keys: seq<Key>, n: int,
      buckets: map<Key, seq<Id>>, taken: map<Key, nat>, picked: seq<Id>, round: nat, start: nat, j: nat)
    requires forall k :: k in keys <==> k in full
    requires MidRound(full, keys, n, buckets, taken, picked, round, start, j)
    ensures j <= |keys| && forall k :: k in keys ==> k in buckets && k in taken
  {
    hide NoRepeat, Total, Visited, PickedOf, OnlyFrom;
  }

  /** The inner loop. */
  method Pass<Id(==, !new), Key(==, !new)>(ghost full: map<Key, seq<Id>>, keys: seq<Key>, n: int,
      buckets0: map<Key, seq<Id>>, picked0: seq<Id>, ghost taken0: map<Key, nat>, ghost round: nat)
      returns (buckets: map<Key, seq<Id>>, picked: seq<Id>, ghost taken: map<Key, nat>, ghost j: nat)
    requires Distinct(keys) && DisjointBuckets(full) && forall k :: k in keys <==> k in full
    requires MidRound(full, keys, n, buckets0, taken0, picked0, round, |picked0|, 0)
    ensures MidRound(full, keys, n, buckets, taken, picked, round, |picked0|, j)
    ensures j == |keys| || |picked| >= n
  {
    hide MidRound, Distinct, DisjointBuckets;
    buckets, picked, taken := buckets0, picked0, taken0;
    var i := 0;
    while i < |keys| && |picked| < n
      invariant i <= |keys| && MidRound(full, keys, n, buckets, taken, picked, round, |picked0|, i)
    {
      MidKeys(full, keys, n, buckets, taken, picked, round, |picked0|, i);
      var k := keys[i];
      if buckets[k] != [] {
        PopOne(full, keys, n, buckets, taken, picked, round, |picked0|, i);
        picked := picked + [buckets[k][0]];
        buckets := buckets[k := buckets[k][1..]];
        taken := taken[k := taken[k] + 1];
      } else {
        SkipOne(full, keys, n, buckets, taken, picked, round, |picked0|, i);
      }
      i := i + 1;
    }
    j := i;
  }

  /** The round ends having picked something, from every bucket or up to n. */
  lemma {:induction false} RoundEnds<Id(!new), Key(!new)>(full: map<Key, seq<Id>>, keys: seq<Key>, n: int,
      buckets0: map<Key, seq<Id>>, taken0: map<Key, nat>, picked0: seq<Id>, buckets: map<Key, seq<Id>>,
      taken: map<Key, nat>, picked: seq<Id>, round: nat, j: nat)
    requires forall k :: k in keys <==> k in full
    requires Split(full, buckets0, taken0, picked0) && exists k :: k in keys && buckets0[k] != []
    requires forall k :: k in full ==> taken0[k] == Min(round, |full[k]|)
    requires |picked0| < n && MidRound(full, keys, n, buckets, taken, picked, round, |picked0|, j)
    requires j == |keys| || |picked| >= n
    ensures |picked0| < |picked| == Total(keys, taken) <= n
    ensures Split(full, buckets, taken, picked) && NoRepeat(buckets, picked) && TakenEvenly(full, taken, round)
    ensures |picked| < n ==> forall k :: k in full ==> taken[k] == Min(round + 1, |full[k]|)
  {
    PrefixAll(keys, j);
    StoppedMidRound(full, taken, round, keys[..j]);
    hide NoRepeat, Total, PickedOf, OnlyFrom;
    var k :| k in keys && buckets0[k] != [];
    assert round < |full[k]|;
  }

  /** One pass of the inner loop: every non-empty bucket gives up one id, until n are picked. */
  method OneRound<Id(==, !new), Key(==, !new)>(ghost full: map<Key, seq<Id>>, keys: seq<Key>, n: int,
      buckets0: map<Key, seq<Id>>, picked0: seq<Id>, ghost taken0: map<Key, nat>, ghost round: nat)
      returns (buckets: map<Key, seq<Id>>, picked: seq<Id>, ghost taken: map<Key, nat>)
    requires Distinct(keys) && forall k :: k in keys <==> k in full
    requires DisjointBuckets(full) && Split(full, buckets0, taken0, picked0) && NoRepeat(buckets0, picked0)
    requires |picked0| == Total(keys, taken0) < n && exists k :: k in keys && buckets0[k] != []
    requires forall k :: k in full ==> taken0[k] == Min(round, |full[k]|)
    ensures Split(full, buckets, taken, picked) && NoRepeat(buckets, picked)
    ensures |picked0| < |picked| == Total(keys, taken) <= n
    ensures TakenEvenly(full, taken, round)
    ensures |picked| < n ==> forall k :: k in full ==> taken[k] == Min(round + 1, |full[k]|)
  {
    hide Split, NoRepeat, Total, Distinct, DisjointBuckets, TakenEvenly;
    ghost var j;
    buckets, picked, taken, j := Pass(full, keys, n, buckets0, picked0, taken0, round);
    hide MidRound;
    RoundEnds(full, keys, n, buckets0, taken0, picked0, buckets, taken, picked, round, j);
  }

  lemma {:induction false} PrefixAll<Key>(keys: seq<Key>, j: nat)
    requires j <= |keys|
    ensures j == |keys| ==> keys[..j] == keys
  {
  }

  /** A round stopped anywhere leaves every bucket within one of the others, sizes permitting. */
  lemma {:induction false} StoppedMidRound<Id, Key(!new)>(full: map<Key, seq<Id>>, taken: map<Key, nat>, round: nat,
      done: seq<Key>)
    requires taken.Keys == full.Keys
    requires Visited(full, taken, round, done)
    ensures TakenEvenly(full, taken, round)
  {
  }

  /** One id per non-empty bucket and round, in the order of `keys`, until n are picked. */
  method RoundRobin<Id(==, !new), Key(==, !new)>(full: map<Key, seq<Id>>, keys: seq<Key>, n: int)
      returns (picked: seq<Id>, ghost taken: map<Key, nat>, ghost round: nat)
    requires Distinct(keys) && forall k :: k in keys <==> k in full
    requires DisjointBuckets(full)
    ensures Distinct(picked)
    ensures TakenEvenly(full, taken, round)
    ensures |picked| == Total(keys, taken)
    ensures |picked| <= (if n < 0 then 0 else n)
    ensures |picked| < n ==> forall k :: k in full ==> taken[k] == |full[k]|
    ensures forall k :: k in full ==> PickedOf(picked, full[k]) == full[k][..taken[k]]
    ensures OnlyFrom(full, picked)
  {
    var buckets := full;
    picked, taken, round := [], map k | k in full :: 0, 0;
    TotalZero(keys, taken);
    while |picked| < n && exists k :: k in keys && buckets[k] != []
      invariant Split(full, buckets, taken, picked) && NoRepeat(buckets, picked)
      invariant |picked| == Total(keys, taken)
      invariant n <= 0 ==> picked == []
      invariant 0 < n ==> |picked| <= n
      invariant TakenEvenly(full, taken, round)
      invariant |picked| < n ==> forall k :: k in full ==> taken[k] == Min(round, |full[k]|)
      decreases n - |picked|
    {
      buckets, picked, taken := OneRound(full, keys, n, buckets, picked, taken, round);
      if |picked| < n {
        round := round + 1;
        StoppedMidRound(full, taken, round, []);
      }
    }
  }

  /** The buckets of a gold set share no id and repeat none. */
  lemma {:induction false} BucketsAreDisjoint<Id(!new), Key(!new)>(gold: seq<Gold<Id, Key>>,
      buckets: map<Key, seq<Id>>)
    requires DistinctIds(gold)
    requires forall k :: k in buckets ==> buckets[k] == Bucket(gold, k)
    ensures DisjointBuckets(buckets)
  {
    forall k, l, id | k in buckets && l in buckets && id in buckets[k] && id in buckets[l]
      ensures k == l
    {
      BucketsDisjoint(gold, k, l, id);
    }
    forall k | k in buckets ensures Distinct(buckets[k]) {
      BucketDistinct(gold, k);
    }
  }

  /** How many of the picked ids came out of the bucket of `k`. */
  ghost function Share<Id, Key>(gold: seq<Gold<Id, Key>>, picked: seq<Id>, k: Key): nat {
    |PickedOf(picked, Bucket(gold, k))|
  }

  /** `cherry_pick` up to the final conversion: exactly min(n, eligible) distinct ids, spread over the
      buckets as evenly as their sizes allow. */
  method CherryPick<Id(==, !new), Key(==, !new)>(gold: seq<Gold<Id, Key>>, keys: seq<Key>, n: int)
      returns (picked: seq<Id>)
    requires DistinctIds(gold)
    requires Distinct(keys) && forall k :: k in keys <==> Bucket(gold, k) != []
    ensures |picked| == (if n < 0 then 0 else Min(n, Eligible(gold)))
    ensures Distinct(picked)
    ensures forall i :: 0 <= i < |picked| ==> exists g :: g in gold && g.id == picked[i] && !g.paraphrase
    ensures forall k :: k in keys ==> PickedOf(picked, Bucket(gold, k)) <= Bucket(gold, k)
    ensures forall k, l :: k in keys && l in keys ==>
              Share(gold, picked, k) <= Share(gold, picked, l) + 1 || Share(gold, picked, l) == |Bucket(gold, l)|
  {
    var buckets := FillBuckets(gold);
    BucketsAreDisjoint(gold, buckets);
    ghost var taken, round;
    picked, taken, round := RoundRobin(buckets, keys, n);
    AllTaken(gold, keys, taken);
    forall i | 0 <= i < |picked|
      ensures exists g :: g in gold && g.id == picked[i] && !g.paraphrase
    {
      var k :| k in buckets && picked[i] in buckets[k];
      BucketMember(gold, k, picked[i]);
    }
    forall k | k in keys
      ensures Share(gold, picked, k) == taken[k]
    {
      assert PickedOf(picked, buckets[k]) == buckets[k][..taken[k]];
    }
  }

  lemma {:induction false} AllTaken<Id, Key(!new)>(gold: seq<Gold<Id, Key>>, keys: seq<Key>, taken: map<Key, nat>)
    requires Distinct(keys) && forall k :: k in keys <==> Bucket(gold, k) != []
    requires forall k :: k in keys ==> k in taken && taken[k] <= |Bucket(gold, k)|
    ensures Total(keys, taken) <= Eligible(gold)
    ensures (forall k :: k in keys ==> taken[k] == |Bucket(gold, k)|) ==> Total(keys, taken) == Eligible(gold)
  {
    forall g | g in gold && !g.paraphrase ensures g.key in keys {
      BucketMember(gold, g.key, g.id);
    }
    BucketsPartition(gold, keys);
    TotalAtMost(keys, taken, Sizes(gold, keys));
    if forall k :: k in keys ==> taken[k] == |Bucket(gold, k)| {
      TotalSame(keys, taken, Sizes(gold, keys));
    }
  }

  lemma {:induction false} TotalAtMost<Key>(keys: seq<Key>, c: map<Key, nat>, d: map<Key, nat>)
    requires forall k :: k in keys ==> k in c && k in d && c[k] <= d[k]
    ensures Total(keys, c) <= Total(keys, d)
  {
    if keys != [] {
      TotalAtMost(keys[..|keys| - 1], c, d);
    }
  }
}
