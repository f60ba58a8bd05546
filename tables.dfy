/** The queries the repositories run against their tables: look a row up by
    its key, filter, order, limit, replace a row and delete rows. A table is
    the sequence of its rows in insertion order. */
module Tables {
  import opened Wrappers

  /** No two rows share a key (the primary-key constraint). */
  ghost predicate UniqueKeys<T, K>(rows: seq<T>, key: T -> K) {
    forall i, j | 0 <= i < j < |rows| :: key(rows[i]) != key(rows[j])
  }

  /** Every key is below the next key the table will hand out. */
  ghost predicate KeysBelow<T>(rows: seq<T>, key: T -> Id, bound: Id) {
    forall i | 0 <= i < |rows| :: key(rows[i]) < bound
  }

  /** `findByPk` / `findOne`: the first row whose key is `id`, if any. */
  function Find<T, K(==)>(rows: seq<T>, key: T -> K, id: K): (r: Option<T>)
    ensures r.Some? ==> r.value in rows && key(r.value) == id
    ensures r.None? <==> forall i | 0 <= i < |rows| :: key(rows[i]) != id
  {
    if rows == [] then None
    else if key(rows[0]) == id then Some(rows[0])
    else
      var r := Find(rows[1..], key, id);
      assert forall i | 1 <= i < |rows| :: rows[i] == rows[1..][i - 1];
      r
  }

  /** In a table with unique keys, a row is found by its own key. */
  lemma {:induction false} FindMember<T, K>(rows: seq<T>, key: T -> K, x: T)
    requires UniqueKeys(rows, key) && x in rows
    ensures Find(rows, key, key(x)) == Some(x)
  {
    if rows[0] != x {
      assert UniqueKeys(rows[1..], key) by {
        forall i, j | 0 <= i < j < |rows[1..]| ensures key(rows[1..][i]) != key(rows[1..][j]) {
          assert rows[1..][i] == rows[i + 1] && rows[1..][j] == rows[j + 1];
        }
      }
      var k :| 0 <= k < |rows| && rows[k] == x;
      assert k > 0 && key(rows[0]) != key(rows[k]);
      assert x in rows[1..] by { assert rows[1..][k - 1] == x; }
      FindMember(rows[1..], key, x);
    }
  }

  /** Two tables that hold the same rows wherever either has key `id` give the
      same answer to a lookup of `id`. */
  lemma {:induction false} FindSameWhereKeyed<T, K>(a: seq<T>, b: seq<T>, key: T -> K, id: K)
    requires |a| == |b|
    requires forall i | 0 <= i < |a| :: key(a[i]) == id || key(b[i]) == id ==> a[i] == b[i]
    ensures Find(a, key, id) == Find(b, key, id)
  {
    if a != [] {
      FindSameWhereKeyed(a[1..], b[1..], key, id);
    }
  }

  /** The rows satisfying `p`, in table order (a `where` clause). */
  function Filter<T>(rows: seq<T>, p: T -> bool): (r: seq<T>)
    ensures |r| <= |rows|
    ensures forall x | x in r :: x in rows && p(x)
    ensures forall x | x in rows && p(x) :: x in r
  {
    if rows == [] then []
    else
      var rest := Filter(rows[1..], p);
      assert forall x | x in rows :: x == rows[0] || x in rows[1..];
      if p(rows[0]) then [rows[0]] + rest else rest
  }

  /** Filtering a table that grew by one row. */
  lemma {:induction false} FilterAppend<T>(rows: seq<T>, x: T, p: T -> bool)
    ensures Filter(rows + [x], p) == Filter(rows, p) + (if p(x) then [x] else [])
  {
    if rows != [] {
      assert (rows + [x])[1..] == rows[1..] + [x];
      FilterAppend(rows[1..], x, p);
    }
  }

  /** A filter keeps keys unique. */
  lemma {:induction false} FilterKeepsUnique<T, K>(rows: seq<T>, p: T -> bool, key: T -> K)
    requires UniqueKeys(rows, key)
    ensures UniqueKeys(Filter(rows, p), key)
  {
    if rows != [] {
      assert UniqueKeys(rows[1..], key) by {
        forall i, j | 0 <= i < j < |rows[1..]| ensures key(rows[1..][i]) != key(rows[1..][j]) {
          assert rows[1..][i] == rows[i + 1] && rows[1..][j] == rows[j + 1];
        }
      }
      FilterKeepsUnique(rows[1..], p, key);
      var rest := Filter(rows[1..], p);
      forall y | y in rest ensures key(y) != key(rows[0]) {
        var k :| 0 <= k < |rows[1..]| && rows[1..][k] == y;
        assert rows[k + 1] == y;
      }
    }
  }

  /** A filter keeps keys unique and below the table's counter. */
  lemma FilterKeepsKeys<T>(rows: seq<T>, p: T -> bool, key: T -> Id, bound: Id)
    requires UniqueKeys(rows, key) && KeysBelow(rows, key, bound)
    ensures UniqueKeys(Filter(rows, p), key) && KeysBelow(Filter(rows, p), key, bound)
  {
    FilterKeepsUnique(rows, p, key);
    var r := Filter(rows, p);
    forall i | 0 <= i < |r| ensures key(r[i]) < bound {
      assert r[i] in r;
    }
  }

  /** A filter every row passes changes nothing. */
  lemma {:induction false} FilterAll<T>(rows: seq<T>, p: T -> bool)
    requires forall i | 0 <= i < |rows| :: p(rows[i])
    ensures Filter(rows, p) == rows
  {
    if rows != [] {
      FilterAll(rows[1..], p);
    }
  }

  /** The rows whose key is not `id` (a delete by key keeps these). */
  function KeyNot<T, K(==)>(key: T -> K, id: K): T -> bool {
    (x: T) => key(x) != id
  }

  /** Deleting the rows keyed `id` leaves the lookup of every other key as it
      was. */
  lemma {:induction false} FindAfterRemove<T, K>(rows: seq<T>, key: T -> K, id: K, other: K)
    requires other != id
    ensures Find(Filter(rows, KeyNot(key, id)), key, other) == Find(rows, key, other)
  {
    if rows != [] {
      FindAfterRemove(rows[1..], key, id, other);
    }
  }

  /** With unique keys, deleting by key removes one row when a row has that key
      and none otherwise. */
  lemma {:induction false} RemoveKeyCount<T, K>(rows: seq<T>, key: T -> K, id: K)
    requires UniqueKeys(rows, key)
    ensures |Filter(rows, KeyNot(key, id))| == |rows| - (if Find(rows, key, id).Some? then 1 else 0)
  {
    if rows != [] {
      assert UniqueKeys(rows[1..], key) by {
        forall i, j | 0 <= i < j < |rows[1..]| ensures key(rows[1..][i]) != key(rows[1..][j]) {
          assert rows[1..][i] == rows[i + 1] && rows[1..][j] == rows[j + 1];
        }
      }
      RemoveKeyCount(rows[1..], key, id);
      if key(rows[0]) == id {
        forall i | 0 <= i < |rows[1..]| ensures key(rows[1..][i]) != id {
          assert rows[1..][i] == rows[i + 1];
        }
      }
    }
  }

  /** The number of rows satisfying `p` (a `count` query). */
  function Count<T>(rows: seq<T>, p: T -> bool): (n: nat)
    ensures n == |Filter(rows, p)|
  {
    if rows == [] then 0 else (if p(rows[0]) then 1 else 0) + Count(rows[1..], p)
  }

  /** The table with the row keyed `id` replaced by `v` (an in-place save). */
  function Replace<T>(rows: seq<T>, key: T -> Id, id: Id, v: T): (r: seq<T>)
    ensures |r| == |rows|
    ensures forall i | 0 <= i < |rows| :: r[i] == if key(rows[i]) == id then v else rows[i]
  {
    seq(|rows|, i requires 0 <= i < |rows| => if key(rows[i]) == id then v else rows[i])
  }

  /** Replacing a row by one with the same key keeps the keys as they were. */
  lemma ReplaceKeepsKeys<T>(rows: seq<T>, key: T -> Id, id: Id, v: T, bound: Id)
    requires UniqueKeys(rows, key) && KeysBelow(rows, key, bound) && key(v) == id
    ensures UniqueKeys(Replace(rows, key, id, v), key) && KeysBelow(Replace(rows, key, id, v), key, bound)
  {
    var r := Replace(rows, key, id, v);
    assert forall i | 0 <= i < |rows| :: key(r[i]) == key(rows[i]);
  }

  /** A row whose key is fresh can be appended without breaking the keys. */
  lemma AppendKeepsKeys<T>(rows: seq<T>, key: T -> Id, v: T, bound: Id)
    requires UniqueKeys(rows, key) && KeysBelow(rows, key, bound) && key(v) == bound
    ensures UniqueKeys(rows + [v], key) && KeysBelow(rows + [v], key, bound + 1)
  {
  }

  /** `limit n`: the first `n` rows, or all of them when there are fewer. */
  function Take<T>(rows: seq<T>, n: nat): (r: seq<T>)
    ensures |r| == if |rows| < n then |rows| else n
    ensures r == rows[..|r|]
  {
    if |rows| <= n then rows else rows[..n]
  }

  /** `le` orders the rows: every two are comparable, and it is transitive. */
  ghost predicate TotalPreorder<T(!new)>(le: (T, T) -> bool) {
    && (forall a, b :: le(a, b) || le(b, a))
    && (forall a, b, c :: le(a, b) && le(b, c) ==> le(a, c))
  }

  ghost predicate SortedBy<T>(s: seq<T>, le: (T, T) -> bool) {
    forall i, j | 0 <= i < j < |s| :: le(s[i], s[j])
  }

  function Insert<T>(x: T, s: seq<T>, le: (T, T) -> bool): (r: seq<T>)
    ensures multiset(r) == multiset(s) + multiset{x}
  {
    if s == [] || le(x, s[0]) then [x] + s
    else
      assert s == [s[0]] + s[1..];
      [s[0]] + Insert(x, s[1..], le)
  }

  /** `order by`: insertion sort under `le`. */
  function Sort<T>(s: seq<T>, le: (T, T) -> bool): (r: seq<T>)
    ensures multiset(r) == multiset(s)
  {
    if s == [] then []
    else
      assert s == [s[0]] + s[1..];
      Insert(s[0], Sort(s[1..], le), le)
  }

  /** The head of a sorted sequence ranks no later than any row after it. */
  lemma SortedHeadFirst<T>(s: seq<T>, le: (T, T) -> bool)
    requires s != [] && SortedBy(s, le)
    ensures forall y | y in s[1..] :: le(s[0], y)
  {
    forall y | y in s[1..] ensures le(s[0], y) {
      var k :| 0 <= k < |s[1..]| && s[1..][k] == y;
      assert s[k + 1] == y;
    }
  }

  /** A row that ranks no later than every row of a sorted sequence can lead it. */
  lemma ConsSorted<T>(a: T, rest: seq<T>, le: (T, T) -> bool)
    requires SortedBy(rest, le) && forall y | y in rest :: le(a, y)
    ensures SortedBy([a] + rest, le)
  {
    var r := [a] + rest;
    forall i, j | 0 <= i < j < |r| ensures le(r[i], r[j]) {
      assert r[j] == rest[j - 1];
      if i > 0 {
        assert r[i] == rest[i - 1];
      }
    }
  }

  lemma {:induction false} InsertSorted<T(!new)>(x: T, s: seq<T>, le: (T, T) -> bool)
    requires TotalPreorder(le) && SortedBy(s, le)
    ensures SortedBy(Insert(x, s, le), le)
  {
    if s != [] && !le(x, s[0]) {
      var rest := Insert(x, s[1..], le);
      assert SortedBy(s[1..], le);
      InsertSorted(x, s[1..], le);
      SortedHeadFirst(s, le);
      forall y | y in rest ensures le(s[0], y) {
        assert y in multiset(rest);
        if y != x {
          assert y in multiset(s[1..]);
        }
      }
      ConsSorted(s[0], rest, le);
    }
  }

  /** Sorting puts the rows in `le` order and keeps every row. */
  lemma {:induction false} SortSorted<T(!new)>(s: seq<T>, le: (T, T) -> bool)
    requires TotalPreorder(le)
    ensures SortedBy(Sort(s, le), le)
  {
    if s != [] {
      SortSorted(s[1..], le);
      InsertSorted(s[0], Sort(s[1..], le), le);
    }
  }

  /** A prefix of a sorted sequence is sorted. */
  lemma TakeSorted<T>(s: seq<T>, n: nat, le: (T, T) -> bool)
    requires SortedBy(s, le)
    ensures SortedBy(Take(s, n), le)
  {
  }

  /** A limit applied to a sorted listing keeps the best-ranked rows: every row
      kept ranks no later than every row cut off. */
  lemma TakeRanks<T>(s: seq<T>, n: nat, le: (T, T) -> bool)
    requires SortedBy(s, le)
    ensures forall x, y | x in Take(s, n) && y in s && y !in Take(s, n) :: le(x, y)
  {
    var r := Take(s, n);
    forall x, y | x in r && y in s && y !in r ensures le(x, y) {
      var i :| 0 <= i < |r| && r[i] == x;
      var j :| 0 <= j < |s| && s[j] == y;
      assert forall k | 0 <= k < |r| :: s[k] == r[k] && r[k] in r;
      assert j >= |r| && s[i] == x;
    }
  }
}
