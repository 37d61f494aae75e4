/**
 * `findMany({ where: { userId }, orderBy: [{ timestamp: 'desc' }], take: limit })`
 * over one of the append-only logs: the user's rows, newest first, at most
 * `limit` of them. Rows with equal timestamps keep the order they were logged
 * in (the database leaves that order open; any fixed order would do).
 *
 * The three logs have different row types, so the query is written once over
 * a row type `T`, with the row's owner and timestamp given as functions.
 */
module History {

  /** Newest first: timestamps never increase along `s`. */
  ghost predicate NewestFirst<T>(s: seq<T>, key: T -> int) {
    forall i, j :: 0 <= i < j < |s| ==> key(s[i]) >= key(s[j])
  }

  /** The rows of `s` owned by `u`, in log order. */
  function OwnedBy<T>(s: seq<T>, owner: T -> string, u: string): seq<T> {
    if s == [] then []
    else if owner(s[0]) == u then [s[0]] + OwnedBy(s[1..], owner, u)
    else OwnedBy(s[1..], owner, u)
  }

  /** The filter keeps only `u`'s rows, each no more often than logged, and every one of them. */
  lemma OwnedByFacts<T>(s: seq<T>, owner: T -> string, u: string)
    ensures forall i :: 0 <= i < |OwnedBy(s, owner, u)| ==> owner(OwnedBy(s, owner, u)[i]) == u
    ensures multiset(OwnedBy(s, owner, u)) <= multiset(s)
    ensures forall i :: 0 <= i < |s| && owner(s[i]) == u ==> s[i] in OwnedBy(s, owner, u)
  {
    OwnedByOwned(s, owner, u);
    OwnedBySub(s, owner, u);
    OwnedByAll(s, owner, u);
  }

  lemma {:induction false} OwnedByOwned<T>(s: seq<T>, owner: T -> string, u: string)
    ensures forall i :: 0 <= i < |OwnedBy(s, owner, u)| ==> owner(OwnedBy(s, owner, u)[i]) == u
  {
    if s != [] {
      OwnedByOwned(s[1..], owner, u);
      var rest := OwnedBy(s[1..], owner, u);
      if owner(s[0]) == u {
        assert forall i :: 1 <= i < |rest| + 1 ==> ([s[0]] + rest)[i] == rest[i - 1];
      }
    }
  }

  lemma {:induction false} OwnedBySub<T>(s: seq<T>, owner: T -> string, u: string)
    ensures multiset(OwnedBy(s, owner, u)) <= multiset(s)
  {
    if s != [] {
      OwnedBySub(s[1..], owner, u);
      assert s == [s[0]] + s[1..];
      assert multiset(s) == multiset{s[0]} + multiset(s[1..]);
    }
  }

  lemma {:induction false} OwnedByAll<T>(s: seq<T>, owner: T -> string, u: string)
    ensures forall i :: 0 <= i < |s| && owner(s[i]) == u ==> s[i] in OwnedBy(s, owner, u)
  {
    if s != [] {
      var tail := s[1..];
      OwnedByAll(tail, owner, u);
      forall i | 1 <= i < |s| && owner(s[i]) == u
        ensures s[i] in OwnedBy(tail, owner, u)
      {
        assert s[i] == tail[i - 1];
      }
    }
  }

  /** No row of `t` is newer than `b`. */
  ghost predicate AtMost<T>(t: seq<T>, key: T -> int, b: int) {
    forall k :: 0 <= k < |t| ==> key(t[k]) <= b
  }

  /** The bound depends only on which rows there are. */
  lemma AtMostByMultiset<T>(a: seq<T>, t: seq<T>, key: T -> int, b: int)
    requires multiset(a) == multiset(t) && AtMost(t, key, b)
    ensures AtMost(a, key, b)
  {
    forall k | 0 <= k < |a|
      ensures key(a[k]) <= b
    {
      assert a[k] in multiset(t);
      var i :| 0 <= i < |t| && t[i] == a[k];
    }
  }

  lemma ConsNewestFirst<T>(h: T, t: seq<T>, key: T -> int)
    requires NewestFirst(t, key) && AtMost(t, key, key(h))
    ensures NewestFirst([h] + t, key)
  {
    var r := [h] + t;
    forall i, j | 0 <= i < j < |r|
      ensures key(r[i]) >= key(r[j])
    {
      assert r[j] == t[j - 1];
      if i > 0 {
        assert r[i] == t[i - 1];
      }
    }
  }

  /** `x` goes before the first row that is strictly older, after any of its own age. */
  function Insert<T>(x: T, s: seq<T>, key: T -> int): (r: seq<T>)
    ensures multiset(r) == multiset(s) + multiset{x}
  {
    if s == [] || key(s[0]) < key(x) then [x] + s
    else
      assert s == [s[0]] + s[1..];
      [s[0]] + Insert(x, s[1..], key)
  }

  /** Inserting into a newest-first list keeps it newest first. */
  lemma {:induction false} InsertNewestFirst<T>(x: T, s: seq<T>, key: T -> int)
    requires NewestFirst(s, key)
    ensures NewestFirst(Insert(x, s, key), key)
  {
    if s == [] || key(s[0]) < key(x) {
      assert AtMost(s, key, key(x));
      ConsNewestFirst(x, s, key);
    } else {
      var rest := Insert(x, s[1..], key);
      assert NewestFirst(s[1..], key);
      InsertNewestFirst(x, s[1..], key);
      assert AtMost(s[1..] + [x], key, key(s[0]));
      assert multiset(rest) == multiset(s[1..] + [x]);
      AtMostByMultiset(rest, s[1..] + [x], key, key(s[0]));
      ConsNewestFirst(s[0], rest, key);
    }
  }

  /** A newest-first permutation of `s`. */
  function SortNewestFirst<T>(s: seq<T>, key: T -> int): (r: seq<T>)
    ensures NewestFirst(r, key)
    ensures multiset(r) == multiset(s)
  {
    if s == [] then []
    else
      assert s == [s[0]] + s[1..];
      var sorted := SortNewestFirst(s[1..], key);
      InsertNewestFirst(s[0], sorted, key);
      Insert(s[0], sorted, key)
  }

  /** A copy of a row that the first `k` rows of a newest-first list leave out is no newer than the k-th. */
  lemma PrefixKeepsNewest<T>(sorted: seq<T>, key: T -> int, k: nat, x: T)
    requires NewestFirst(sorted, key) && k <= |sorted|
    requires multiset(sorted[..k])[x] < multiset(sorted)[x]
    ensures k < |sorted|
    ensures k > 0 ==> key(x) <= key(sorted[k - 1])
  {
    assert sorted == sorted[..k] + sorted[k..];
    assert multiset(sorted) == multiset(sorted[..k]) + multiset(sorted[k..]);
    assert x in multiset(sorted[k..]);
    var j :| 0 <= j < |sorted[k..]| && sorted[k..][j] == x;
    assert sorted[k + j] == x;
  }

  /** The smaller of `a` and `b`. */
  function Min(a: nat, b: nat): nat {
    if a < b then a else b
  }

  /**
   * What the query promises of its answer `r`: only `u`'s rows of `s` (no row
   * more often than it is logged), newest first, exactly as many as `limit`
   * allows (all of `u`'s rows when there are fewer), and a copy of a row of
   * `u` is left out only when the list is full and that row is no newer than
   * the last one kept.
   */
  ghost predicate RecentOf<T(!new)>(r: seq<T>, s: seq<T>, owner: T -> string, key: T -> int, u: string, limit: nat) {
    && (forall i :: 0 <= i < |r| ==> owner(r[i]) == u)
    && multiset(r) <= multiset(s)
    && NewestFirst(r, key)
    && |r| == Min(limit, |OwnedBy(s, owner, u)|)
    && (forall x :: multiset(r)[x] < multiset(OwnedBy(s, owner, u))[x] ==>
          |r| == limit && (limit > 0 ==> key(x) <= key(r[|r| - 1])))
  }

  /**
   * What a negative `take: -n` promises: only `u`'s rows, newest first, the
   * `n` oldest of them (all when there are fewer), and a copy of a row of `u`
   * is left out only when the list is full and that row is no older than the
   * first one kept.
   */
  ghost predicate OldestOf<T(!new)>(r: seq<T>, s: seq<T>, owner: T -> string, key: T -> int, u: string, n: nat) {
    && (forall i :: 0 <= i < |r| ==> owner(r[i]) == u)
    && multiset(r) <= multiset(s)
    && NewestFirst(r, key)
    && |r| == Min(n, |OwnedBy(s, owner, u)|)
    && (forall x :: multiset(r)[x] < multiset(OwnedBy(s, owner, u))[x] ==>
          |r| == n && (n > 0 ==> key(x) >= key(r[0])))
  }

  /** The first `k` rows of a newest-first list are newest first, and are rows of the list. */
  lemma PrefixFacts<T>(sorted: seq<T>, key: T -> int, k: nat)
    requires NewestFirst(sorted, key) && k <= |sorted|
    ensures NewestFirst(sorted[..k], key)
    ensures multiset(sorted[..k]) <= multiset(sorted)
  {
    var r := sorted[..k];
    assert sorted == r + sorted[k..];
    assert multiset(sorted) == multiset(r) + multiset(sorted[k..]);
    forall i, j | 0 <= i < j < |r|
      ensures key(r[i]) >= key(r[j])
    {
      assert r[i] == sorted[i] && r[j] == sorted[j];
    }
  }

  /** Rows drawn from `u`'s rows are `u`'s. */
  lemma OwnedSub<T>(r: seq<T>, mine: seq<T>, owner: T -> string, u: string)
    requires forall i :: 0 <= i < |mine| ==> owner(mine[i]) == u
    requires multiset(r) <= multiset(mine)
    ensures forall i :: 0 <= i < |r| ==> owner(r[i]) == u
  {
    forall i | 0 <= i < |r|
      ensures owner(r[i]) == u
    {
      assert r[i] in multiset(mine);
    }
  }

  /** A copy of a row of `u`'s that the first `k` rows leave out: the list was cut at `limit`, after rows no older than it. */
  lemma LeftOutIsOlder<T>(mine: seq<T>, key: T -> int, limit: nat, sorted: seq<T>, k: nat)
    requires NewestFirst(sorted, key) && multiset(sorted) == multiset(mine)
    requires k == Min(limit, |sorted|)
    ensures var r := sorted[..k];
            forall x :: multiset(r)[x] < multiset(mine)[x] ==>
              |r| == limit && (limit > 0 ==> key(x) <= key(r[|r| - 1]))
  {
    var r := sorted[..k];
    forall x | multiset(r)[x] < multiset(mine)[x]
      ensures |r| == limit && (limit > 0 ==> key(x) <= key(r[|r| - 1]))
    {
      PrefixKeepsNewest(sorted, key, k, x);
      assert limit > 0 ==> r[|r| - 1] == sorted[k - 1];
    }
  }

  /** The first `k` rows of a newest-first arrangement of the rows of `s` that `u` owns. */
  lemma RecentFacts<T(!new)>(s: seq<T>, owner: T -> string, key: T -> int, u: string, limit: nat,
                       mine: seq<T>, sorted: seq<T>, k: nat)
    requires mine == OwnedBy(s, owner, u)
    requires forall i :: 0 <= i < |mine| ==> owner(mine[i]) == u
    requires multiset(mine) <= multiset(s)
    requires NewestFirst(sorted, key) && multiset(sorted) == multiset(mine)
    requires k == Min(limit, |sorted|)
    ensures RecentOf(sorted[..k], s, owner, key, u, limit)
  {
    var r := sorted[..k];
    PrefixParts(sorted, key, k, mine, s);
    OwnedSub(r, mine, owner, u);
    LeftOutIsOlder(mine, key, limit, sorted, k);
    RecentFromParts(r, s, owner, key, u, limit, mine);
  }

  /** The first `k` rows of a newest-first arrangement of `mine`, a part of `s`. */
  lemma PrefixParts<T>(sorted: seq<T>, key: T -> int, k: nat, mine: seq<T>, s: seq<T>)
    requires NewestFirst(sorted, key) && k <= |sorted|
    requires multiset(sorted) == multiset(mine) && multiset(mine) <= multiset(s)
    ensures NewestFirst(sorted[..k], key)
    ensures multiset(sorted[..k]) <= multiset(mine) && multiset(sorted[..k]) <= multiset(s)
    ensures |sorted| == |mine|
  {
    PrefixFacts(sorted, key, k);
    assert |sorted| == |multiset(mine)| == |mine|;
  }

  /** `RecentOf`, given its parts with `u`'s rows of `s` named `mine`. */
  lemma RecentFromParts<T(!new)>(r: seq<T>, s: seq<T>, owner: T -> string, key: T -> int, u: string, limit: nat,
                                 mine: seq<T>)
    requires mine == OwnedBy(s, owner, u)
    requires forall i :: 0 <= i < |r| ==> owner(r[i]) == u
    requires multiset(r) <= multiset(s) && NewestFirst(r, key)
    requires |r| == Min(limit, |mine|)
    requires forall x :: multiset(r)[x] < multiset(mine)[x] ==>
               |r| == limit && (limit > 0 ==> key(x) <= key(r[|r| - 1]))
    ensures RecentOf(r, s, owner, key, u, limit)
  {
  }

  /** The query itself: filter by owner, sort newest first, take `limit`. */
  function Recent<T>(s: seq<T>, owner: T -> string, key: T -> int, u: string, limit: nat): seq<T> {
    var sorted := SortNewestFirst(OwnedBy(s, owner, u), key);
    sorted[..Min(limit, |sorted|)]
  }

  /** The query answers what it promises. */
  lemma RecentMeetsPromise<T(!new)>(s: seq<T>, owner: T -> string, key: T -> int, u: string, limit: nat)
    ensures RecentOf(Recent(s, owner, key, u, limit), s, owner, key, u, limit)
  {
    var mine := OwnedBy(s, owner, u);
    OwnedByFacts(s, owner, u);
    var sorted := SortNewestFirst(mine, key);
    var k := Min(limit, |sorted|);
    RecentFacts(s, owner, key, u, limit, mine, sorted, k);
    assert Recent(s, owner, key, u, limit) == sorted[..k];
  }

  /** The last `k` rows of a newest-first list are newest first, and are rows of the list. */
  lemma SuffixFacts<T(!new)>(sorted: seq<T>, key: T -> int, j: nat)
    requires NewestFirst(sorted, key) && j <= |sorted|
    ensures NewestFirst(sorted[j..], key)
    ensures multiset(sorted[j..]) <= multiset(sorted)
  {
    var r := sorted[j..];
    assert sorted == sorted[..j] + r;
    assert multiset(sorted) == multiset(sorted[..j]) + multiset(r);
    forall a, b | 0 <= a < b < |r|
      ensures key(r[a]) >= key(r[b])
    {
      assert r[a] == sorted[j + a] && r[b] == sorted[j + b];
    }
  }

  /** A copy of a row that the rows of a newest-first list from `j` on leave out is no older than the j-th. */
  lemma SuffixKeepsOldest<T>(sorted: seq<T>, key: T -> int, j: nat, x: T)
    requires NewestFirst(sorted, key) && j <= |sorted|
    requires multiset(sorted[j..])[x] < multiset(sorted)[x]
    ensures j > 0
    ensures j < |sorted| ==> key(x) >= key(sorted[j])
  {
    assert sorted == sorted[..j] + sorted[j..];
    assert multiset(sorted) == multiset(sorted[..j]) + multiset(sorted[j..]);
    assert x in multiset(sorted[..j]);
    var i :| 0 <= i < |sorted[..j]| && sorted[..j][i] == x;
    assert sorted[i] == x;
  }

  /** A copy of a row of `u`'s that the rows from `j` on leave out: the list was cut at `n`, before rows no newer than it. */
  lemma LeftOutIsNewer<T>(mine: seq<T>, key: T -> int, n: nat, sorted: seq<T>, j: nat)
    requires NewestFirst(sorted, key) && multiset(sorted) == multiset(mine)
    requires j == |sorted| - Min(n, |sorted|)
    ensures forall x :: multiset(sorted[j..])[x] < multiset(mine)[x] ==>
              |sorted[j..]| == n && (n > 0 ==> key(x) >= key(sorted[j..][0]))
  {
    forall x | multiset(sorted[j..])[x] < multiset(mine)[x]
      ensures |sorted[j..]| == n && (n > 0 ==> key(x) >= key(sorted[j..][0]))
    {
      SuffixKeepsOldest(sorted, key, j, x);
    }
  }

  /** `take: -n` on the newest-first query: its last `n` rows, still newest first. */
  function Oldest<T>(s: seq<T>, owner: T -> string, key: T -> int, u: string, n: nat): seq<T> {
    var sorted := SortNewestFirst(OwnedBy(s, owner, u), key);
    sorted[|sorted| - Min(n, |sorted|)..]
  }

  /** The negative-take query answers what it promises. */
  lemma OldestMeetsPromise<T(!new)>(s: seq<T>, owner: T -> string, key: T -> int, u: string, n: nat)
    ensures OldestOf(Oldest(s, owner, key, u, n), s, owner, key, u, n)
  {
    var mine := OwnedBy(s, owner, u);
    OwnedByFacts(s, owner, u);
    var sorted := SortNewestFirst(mine, key);
    var j := |sorted| - Min(n, |sorted|);
    assert Oldest(s, owner, key, u, n) == sorted[j..];
    SuffixFacts(sorted, key, j);
    OwnedSub(sorted[j..], mine, owner, u);
    LeftOutIsNewer(mine, key, n, sorted, j);
    assert |sorted| == |multiset(mine)| == |mine|;
  }
}
