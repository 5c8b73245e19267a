/**
 The sorted index the adapter polls and the keyset cursor it polls with (`_query_alerts` of
 src/soctalk_adapter/main.py).

 Timestamps and ids are integers that stand for the text values in their sort order.  A document
 is `mappable` when an event can be made of it (`_hit_to_event` gives None for a hit without any id).
 */
module Keyset {
  import opened Wrappers

  /** `id == None` means the start of the timestamp. */
  datatype Cursor = Cursor(ts: int, id: Option<int>)

  datatype Doc = Doc(ts: int, id: int, mappable: bool)

  predicate Before(a: Cursor, b: Cursor) {
    a.ts < b.ts || (a.ts == b.ts && b.id.Some? && (a.id.None? || a.id.value < b.id.value))
  }

  predicate AtMost(a: Cursor, b: Cursor) {
    a == b || Before(a, b)
  }

  function Key(d: Doc): Cursor {
    Cursor(d.ts, Some(d.id))
  }

  /** The document sorts after the cursor: what the range filter and `search_after` let through. */
  predicate Past(d: Doc, c: Cursor) {
    Before(c, Key(d))
  }

  ghost predicate Sorted(ix: seq<Doc>) {
    forall i, j :: 0 <= i < j < |ix| ==> Before(Key(ix[i]), Key(ix[j]))
  }

  /** How many documents the cursor has passed. */
  function Rank(ix: seq<Doc>, c: Cursor): (r: nat)
    ensures r <= |ix|
  {
    if ix == [] || Past(ix[0], c) then 0 else 1 + Rank(ix[1..], c)
  }

  /** One page: the first `limit` documents past the cursor. */
  function Page(ix: seq<Doc>, c: Cursor, limit: nat): seq<Doc> {
    var rest := ix[Rank(ix, c)..];
    if |rest| <= limit then rest else rest[..limit]
  }

  /** The mappable documents, in order. */
  function Events(docs: seq<Doc>): (events: seq<Doc>)
    ensures |events| <= |docs|
  {
    if docs == [] then []
    else
      var last := docs[|docs| - 1];
      Events(docs[..|docs| - 1]) + (if last.mappable then [last] else [])
  }

  /** The events still ahead of the cursor. */
  function Backlog(ix: seq<Doc>, c: Cursor): nat {
    |Events(ix[Rank(ix, c)..])|
  }

  // ----- cursors and ranks

  lemma {:induction false} RankSplits(ix: seq<Doc>, c: Cursor)
    requires Sorted(ix)
    ensures forall i :: 0 <= i < |ix| ==> (i < Rank(ix, c) <==> !Past(ix[i], c))
  {
    if ix != [] {
      if Past(ix[0], c) {
        forall i | 0 <= i < |ix| ensures Past(ix[i], c) {
        }
      } else {
        assert Sorted(ix[1..]) by {
          forall i, j | 0 <= i < j < |ix[1..]| ensures Before(Key(ix[1..][i]), Key(ix[1..][j])) {
            assert ix[1..][i] == ix[i + 1] && ix[1..][j] == ix[j + 1];
          }
        }
        RankSplits(ix[1..], c);
        forall i | 0 <= i < |ix| ensures i < Rank(ix, c) <==> !Past(ix[i], c) {
          if i > 0 {
            assert ix[i] == ix[1..][i - 1];
          }
        }
      }
    }
  }

  lemma {:induction false} RankOfKey(ix: seq<Doc>, q: nat)
    requires Sorted(ix) && q < |ix|
    ensures Rank(ix, Key(ix[q])) == q + 1
  {
    var c := Key(ix[q]);
    RankSplits(ix, c);
    assert !Past(ix[q], c);
    if q + 1 < |ix| {
      assert Past(ix[q + 1], c);
    }
  }

  // ----- events of a page

  lemma {:induction false} EventsConcat(a: seq<Doc>, b: seq<Doc>)
    ensures Events(a + b) == Events(a) + Events(b)
  {
    if b == [] {
      assert a + b == a;
    } else {
      var init, last := b[..|b| - 1], b[|b| - 1];
      assert (a + b)[..|a + b| - 1] == a + init;
      EventsConcat(a, init);
    }
  }

  lemma {:induction false} EventsAreMappable(docs: seq<Doc>, d: Doc)
    ensures d in Events(docs) <==> d in docs && d.mappable
  {
    if docs != [] {
      EventsAreMappable(docs[..|docs| - 1], d);
      assert docs == docs[..|docs| - 1] + [docs[|docs| - 1]];
    }
  }

  /** Where the m-th event stands among the documents. */
  lemma {:induction false} EventPosition(docs: seq<Doc>, m: nat) returns (q: nat)
    requires 0 < m <= |Events(docs)|
    ensures q < |docs| && docs[q] == Events(docs)[m - 1] && Events(docs[..q + 1]) == Events(docs)[..m]
  {
    var init, last := docs[..|docs| - 1], docs[|docs| - 1];
    if m <= |Events(init)| {
      q := EventPosition(init, m);
      assert init[..q + 1] == docs[..q + 1];
    } else {
      q := |docs| - 1;
      assert docs[..q + 1] == docs;
      assert Events(docs)[..m] == Events(docs);
    }
  }

  // ----- a page as a stretch of the index

  lemma {:induction false} PageIsSlice(ix: seq<Doc>, c: Cursor, limit: nat)
    ensures var page := Page(ix, c, limit);
      Rank(ix, c) + |page| <= |ix| && page == ix[Rank(ix, c)..Rank(ix, c) + |page|]
  {
    hide Rank;
  }

  lemma {:induction false} SliceOfSlice<T>(s: seq<T>, lo: nat, n: nat, m: nat)
    requires lo + n <= |s| && m <= n
    ensures s[lo..lo + n][..m] == s[lo..lo + m]
    ensures m > 0 ==> s[lo..lo + n][m - 1] == s[lo + m - 1]
  {
  }

  /** The first m events of a page are those of a stretch of the index that ends with the last of them. */
  lemma {:induction false} EventsBetween(ix: seq<Doc>, c: Cursor, limit: nat, m: nat) returns (r: nat)
    requires Sorted(ix) && 0 < m <= |Events(Page(ix, c, limit))|
    ensures Rank(ix, c) < r <= |ix| && r == Rank(ix, Key(Events(Page(ix, c, limit))[m - 1]))
    ensures Events(ix[Rank(ix, c)..r]) == Events(Page(ix, c, limit))[..m]
  {
    hide Rank, Page, Events, Sorted;
    var page, p := Page(ix, c, limit), Rank(ix, c);
    var q := EventPosition(page, m);
    PageIsSlice(ix, c, limit);
    SliceOfSlice(ix, p, |page|, q + 1);
    RankOfKey(ix, p + q);
    r := p + q + 1;
  }

  lemma {:induction false} StretchMembers(ix: seq<Doc>, c: Cursor, c': Cursor, d: Doc)
    requires Sorted(ix) && Rank(ix, c) <= Rank(ix, c')
    ensures d in ix[Rank(ix, c)..Rank(ix, c')] <==> d in ix && Past(d, c) && !Past(d, c')
  {
    RankSplits(ix, c);
    RankSplits(ix, c');
    var lo, hi := Rank(ix, c), Rank(ix, c');
    hide Past, Sorted, Rank;
    if d in ix && Past(d, c) && !Past(d, c') {
      var i :| 0 <= i < |ix| && ix[i] == d;
      assert ix[lo..hi][i - lo] == d;
    }
  }

  /** The first m events of a page are exactly the events between the cursor and the last of them. */
  lemma {:induction false} PassedEvents(ix: seq<Doc>, c: Cursor, limit: nat, m: nat, d: Doc)
    requires Sorted(ix) && 0 < m <= |Events(Page(ix, c, limit))|
    ensures var events := Events(Page(ix, c, limit));
      d in events[..m] <==> d in ix && d.mappable && Past(d, c) && !Past(d, Key(events[m - 1]))
  {
    hide Rank, Page, Events, Past, Sorted, Key;
    var r := EventsBetween(ix, c, limit, m);
    EventsAreMappable(ix[Rank(ix, c)..r], d);
    StretchMembers(ix, c, Key(Events(Page(ix, c, limit))[m - 1]), d);
  }

  function Range(s: seq<Doc>): set<Doc> {
    set d | d in s
  }

  lemma {:induction false} RangeSize(s: seq<Doc>)
    ensures |Range(s)| <= |s|
    ensures Distinct(s) ==> |Range(s)| == |s|
  {
    if s != [] {
      var init, last := s[..|s| - 1], s[|s| - 1];
      RangeSize(init);
      assert s == init + [last];
      assert Range(s) == Range(init) + {last};
    }
  }

  lemma {:induction false} SortedIsDistinct(ix: seq<Doc>)
    requires Sorted(ix)
    ensures Distinct(ix)
  {
  }

  lemma {:induction false} PassedSet(ix: seq<Doc>, c: Cursor)
    requires Sorted(ix)
    ensures |Range(ix[..Rank(ix, c)])| == Rank(ix, c)
    ensures forall d :: d in Range(ix[..Rank(ix, c)]) <==> d in ix && !Past(d, c)
  {
    var p := Rank(ix, c);
    SortedIsDistinct(ix);
    RangeSize(ix[..p]);
    RankSplits(ix, c);
    hide Rank, Past, Sorted;
    forall d | d in ix && !Past(d, c) ensures d in ix[..p] {
      var i :| 0 <= i < |ix| && ix[i] == d;
      assert ix[..p][i] == d;
    }
  }

  /** Documents that appear past the cursor leave its rank alone. */
  lemma {:induction false} GrowthKeepsRank(ix: seq<Doc>, more: seq<Doc>, c: Cursor)
    requires Sorted(ix) && Sorted(more) && forall d :: d in ix ==> d in more
    requires forall d :: d in more && d !in ix ==> Past(d, c)
    ensures Rank(more, c) == Rank(ix, c)
  {
    PassedSet(ix, c);
    PassedSet(more, c);
    hide Rank, Past, Sorted;
    assert Range(more[..Rank(more, c)]) == Range(ix[..Rank(ix, c)]);
  }

  lemma {:induction false} AllMappable(docs: seq<Doc>)
    requires forall i :: 0 <= i < |docs| ==> docs[i].mappable
    ensures Events(docs) == docs
  {
    if docs != [] {
      AllMappable(docs[..|docs| - 1]);
      assert docs == docs[..|docs| - 1] + [docs[|docs| - 1]];
    }
  }
}
