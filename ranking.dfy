/**
 * The leaderboard: the stored (id, record) pairs in insertion order, sorted by
 * points from high to low with a stable sort (a record without "points" sorts
 * as 0), cut to the first ten.
 */
module Ranking {
  import opened Records

  type Entry = (string, Record)

  const BoardSize: nat := 10

  /** The sort key: the record's points, or 0 when it has none. */
  function Score(e: Entry): (v: int)
    ensures Points in e.1 ==> v == e.1[Points]
    ensures Points !in e.1 ==> v == 0
  {
    if Points in e.1 then e.1[Points] else 0
  }

  /**
   * A stored user sorts by the points the commands see, and as 0 when the record
   * has no "points" key (where the commands raise KeyError).
   */
  lemma ScoreOfStored(db: Db, u: string)
    requires u in db.data
    ensures PointsSeen(db, u).Some? ==> Score((u, db.data[u])) == PointsSeen(db, u).value
    ensures PointsSeen(db, u).None? ==> Score((u, db.data[u])) == 0
  {
  }

  /** Scores never increase from left to right. */
  ghost predicate Sorted(s: seq<Entry>)
  {
    forall i, j :: 0 <= i < j < |s| ==> Score(s[i]) >= Score(s[j])
  }

  /** No user id occurs twice. */
  ghost predicate DistinctIds(s: seq<Entry>)
  {
    forall i, j :: 0 <= i < j < |s| ==> s[i].0 != s[j].0
  }

  /**
   * Puts `e` in front of the first entry that does not score higher, so `e`
   * lands before every entry of equal score: the step of a stable insertion sort
   * whose input is processed from its back.
   */
  function Insert(e: Entry, s: seq<Entry>): (r: seq<Entry>)
    ensures |r| == |s| + 1
    ensures multiset(r) == multiset(s) + multiset{e}
  {
    if s == [] || Score(s[0]) <= Score(e) then [e] + s
    else
      assert s == [s[0]] + s[1..];
      [s[0]] + Insert(e, s[1..])
  }

  lemma {:induction false} InsertSorted(e: Entry, s: seq<Entry>)
    requires Sorted(s)
    ensures Sorted(Insert(e, s))
  {
    if s != [] && Score(s[0]) > Score(e) {
      var r' := Insert(e, s[1..]);
      InsertSorted(e, s[1..]);
      forall k | 0 <= k < |r'| ensures Score(s[0]) >= Score(r'[k]) {
        assert r'[k] in multiset(r');
        assert r'[k] == e || r'[k] in s[1..];
      }
    }
  }

  lemma {:induction false} InsertDistinct(e: Entry, s: seq<Entry>)
    requires DistinctIds(s)
    requires forall x :: x in s ==> x.0 != e.0
    ensures DistinctIds(Insert(e, s))
  {
    if s != [] && Score(s[0]) > Score(e) {
      var r' := Insert(e, s[1..]);
      InsertDistinct(e, s[1..]);
      forall k | 0 <= k < |r'| ensures s[0].0 != r'[k].0 {
        assert r'[k] in multiset(r');
        assert r'[k] == e || r'[k] in s[1..];
      }
    }
  }

  /** `sorted(..., reverse=True)` on the points key: a stable descending sort. */
  function SortDesc(s: seq<Entry>): (r: seq<Entry>)
    ensures |r| == |s|
    ensures multiset(r) == multiset(s)
    ensures Sorted(r)
  {
    if s == [] then []
    else
      assert s == [s[0]] + s[1..];
      InsertSorted(s[0], SortDesc(s[1..]));
      Insert(s[0], SortDesc(s[1..]))
  }

  lemma {:induction false} SortDescDistinct(s: seq<Entry>)
    requires DistinctIds(s)
    ensures DistinctIds(SortDesc(s))
  {
    if s != [] {
      var r' := SortDesc(s[1..]);
      SortDescDistinct(s[1..]);
      forall x | x in r' ensures x.0 != s[0].0 {
        assert x in multiset(s[1..]);
      }
      InsertDistinct(s[0], r');
    }
  }

  /** The entries of `s` whose score is `v`, in their order in `s`. */
  function WithScore(s: seq<Entry>, v: int): (w: seq<Entry>)
  {
    if s == [] then [] else (if Score(s[0]) == v then [s[0]] else []) + WithScore(s[1..], v)
  }

  lemma {:induction false} WithScoreAppend(a: seq<Entry>, b: seq<Entry>, v: int)
    ensures WithScore(a + b, v) == WithScore(a, v) + WithScore(b, v)
  {
    if a == [] {
      assert a + b == b;
    } else {
      assert (a + b)[1..] == a[1..] + b;
      WithScoreAppend(a[1..], b, v);
    }
  }

  lemma {:induction false} InsertWithScore(e: Entry, s: seq<Entry>, v: int)
    ensures WithScore(Insert(e, s), v) == (if Score(e) == v then [e] else []) + WithScore(s, v)
  {
    var r := Insert(e, s);
    if s == [] || Score(s[0]) <= Score(e) {
      assert r[0] == e && r[1..] == s;
    } else {
      var tail := Insert(e, s[1..]);
      assert r[0] == s[0] && r[1..] == tail;
      InsertWithScore(e, s[1..], v);
      if Score(s[0]) == v {
        assert Score(e) != v;
        assert WithScore(r, v) == [s[0]] + WithScore(tail, v);
        assert WithScore(tail, v) == WithScore(s[1..], v);
      } else {
        assert WithScore(r, v) == WithScore(tail, v);
        assert WithScore(s, v) == WithScore(s[1..], v);
      }
    }
  }

  /** The sort is stable: entries of equal score keep their relative order. */
  lemma {:induction false} SortDescStable(s: seq<Entry>, v: int)
    ensures WithScore(SortDesc(s), v) == WithScore(s, v)
  {
    if s != [] {
      InsertWithScore(s[0], SortDesc(s[1..]), v);
      SortDescStable(s[1..], v);
    }
  }

  /** The stored (id, record) pairs in insertion order: `data.items()`. */
  function Items(db: Db): (items: seq<Entry>)
    requires WellFormed(db)
    ensures |items| == |db.order|
    ensures DistinctIds(items)
    ensures forall i :: 0 <= i < |items| ==> items[i] == (db.order[i], db.data[db.order[i]])
  {
    seq(|db.order|, i requires 0 <= i < |db.order| => (db.order[i], db.data[db.order[i]]))
  }

  /** A distinct list of ids has as many elements as the set of its ids. */
  lemma {:induction false} DistinctCard(s: seq<string>)
    requires forall i, j :: 0 <= i < j < |s| ==> s[i] != s[j]
    ensures |set x | x in s| == |s|
  {
    if s != [] {
      var init := s[..|s| - 1];
      DistinctCard(init);
      assert (set x | x in s) == (set x | x in init) + {s[|s| - 1]};
      assert s[|s| - 1] !in init;
    }
  }

  /** The order lists as many ids as are stored. */
  lemma OrderLength(db: Db)
    requires WellFormed(db)
    ensures |db.order| == |db.data|
  {
    assert (set x | x in db.order) == db.data.Keys;
    DistinctCard(db.order);
  }

  /**
   * The leaderboard: the first ten entries of the sorted items, or all of them
   * when there are fewer, in non-increasing order of points.
   */
  function Leaderboard(db: Db): (board: seq<Entry>)
    requires WellFormed(db)
    ensures |board| == if |db.data| < BoardSize then |db.data| else BoardSize
    ensures Sorted(board)
    ensures board <= SortDesc(Items(db))
  {
    var sorted := SortDesc(Items(db));
    OrderLength(db);
    if |sorted| <= BoardSize then sorted else sorted[..BoardSize]
  }

  /** Every entry on the board is a stored user with its stored record, and no user appears twice. */
  lemma LeaderboardEntriesStored(db: Db)
    requires WellFormed(db)
    ensures DistinctIds(Leaderboard(db))
    ensures forall e :: e in Leaderboard(db) ==> e.0 in db.data && e.1 == db.data[e.0]
  {
    var items := Items(db);
    var sorted := SortDesc(items);
    var board := Leaderboard(db);
    SortDescDistinct(items);
    forall e | e in board ensures e.0 in db.data && e.1 == db.data[e.0] {
      assert e in multiset(items);
    }
  }

  /**
   * A stored user is left off the board only when the board is full, and then
   * has no more points than the last entry on it.
   */
  lemma LeaderboardTopTen(db: Db, u: string)
    requires WellFormed(db)
    requires u in db.data && (u, db.data[u]) !in Leaderboard(db)
    ensures |Leaderboard(db)| == BoardSize
    ensures Score((u, db.data[u])) <= Score(Leaderboard(db)[BoardSize - 1])
  {
    var items := Items(db);
    var sorted := SortDesc(items);
    var board := Leaderboard(db);
    var k :| 0 <= k < |db.order| && db.order[k] == u;
    assert items[k] == (u, db.data[u]);
    assert (u, db.data[u]) in multiset(sorted);
    var m :| 0 <= m < |sorted| && sorted[m] == (u, db.data[u]);
    assert sorted[..|board|] == board;
  }

  /**
   * Among users with equal points the board lists an initial run of them, in
   * the order they were first stored.
   */
  lemma LeaderboardStable(db: Db, v: int)
    requires WellFormed(db)
    ensures WithScore(Leaderboard(db), v) <= WithScore(Items(db), v)
  {
    var items := Items(db);
    var sorted := SortDesc(items);
    var board := Leaderboard(db);
    assert sorted == board + sorted[|board|..];
    WithScoreAppend(board, sorted[|board|..], v);
    SortDescStable(items, v);
  }
}
