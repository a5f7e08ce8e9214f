/**
 * The content cache of the Telegram client: a JavaScript `Map` from a cache
 * key to `{expireAt, count, messageId}` with a capacity check and an
 * eviction step that drops the entries closest to expiry.
 *
 * A JavaScript `Map` remembers insertion order, and `clean` relies on it
 * (it sorts a snapshot taken in that order with a stable sort), so the
 * model keeps the order beside the map: `order` lists the keys as the
 * `Map` would iterate them.
 */
module Cache {
  import opened Wrappers

  datatype CacheValue = CacheValue(expireAt: int, count: int, messageId: int)

  predicate Distinct<T(==)>(s: seq<T>)
  {
    forall i, j :: 0 <= i < j < |s| ==> s[i] != s[j]
  }

  /** `order` lists exactly the keys of `entries`, each once. */
  ghost predicate Consistent(order: seq<string>, entries: map<string, CacheValue>)
  {
    Distinct(order) && forall k :: k in order <==> k in entries
  }

  /** `s` with every key of `gone` taken out, the rest kept in order. */
  function Without(s: seq<string>, gone: seq<string>): (r: seq<string>)
    ensures forall x :: x in r <==> x in s && x !in gone
    ensures |r| <= |s|
  {
    if s == [] then []
    else (if s[0] in gone then [] else [s[0]]) + Without(s[1..], gone)
  }

  /** `m` with every key of `gone` deleted. */
  function MapWithout(m: map<string, CacheValue>, gone: seq<string>): (r: map<string, CacheValue>)
    ensures forall k :: k in r <==> k in m && k !in gone
    ensures forall k :: k in r ==> r[k] == m[k]
  {
    map k | k in m && k !in gone :: m[k]
  }

  /** The keys of `s` are ordered by ascending `expireAt`. */
  ghost predicate SortedByExpiry(s: seq<string>, m: map<string, CacheValue>)
    requires forall k :: k in s ==> k in m
  {
    forall i, j :: 0 <= i < j < |s| ==> m[s[i]].expireAt <= m[s[j]].expireAt
  }

  /**
   * Inserts `x` into `t` in front of the first key that does not expire
   * sooner than it, so that keys with equal `expireAt` keep their relative
   * order when `t` came after `x`.
   */
  function InsertByExpiry(x: string, t: seq<string>, m: map<string, CacheValue>): (r: seq<string>)
    requires x in m && forall k :: k in t ==> k in m
    ensures |r| == |t| + 1
    ensures forall k :: k in r <==> k == x || k in t
  {
    if t == [] || m[x].expireAt <= m[t[0]].expireAt then [x] + t
    else [t[0]] + InsertByExpiry(x, t[1..], m)
  }

  lemma {:induction false} InsertSorted(x: string, t: seq<string>, m: map<string, CacheValue>)
    requires x in m && forall k :: k in t ==> k in m
    requires SortedByExpiry(t, m)
    ensures SortedByExpiry(InsertByExpiry(x, t, m), m)
  {
    if t != [] && m[x].expireAt > m[t[0]].expireAt {
      var rest := InsertByExpiry(x, t[1..], m);
      InsertSorted(x, t[1..], m);
      forall k | k in rest ensures m[t[0]].expireAt <= m[k].expireAt {
        if k != x {
          var j :| 0 <= j < |t[1..]| && t[1..][j] == k;
          assert t[j + 1] == k;
        }
      }
    }
  }

  lemma {:induction false} InsertDistinct(x: string, t: seq<string>, m: map<string, CacheValue>)
    requires x in m && forall k :: k in t ==> k in m
    requires Distinct(t) && x !in t
    ensures Distinct(InsertByExpiry(x, t, m))
  {
    if t != [] && m[x].expireAt > m[t[0]].expireAt {
      assert t[0] !in t[1..];
      InsertDistinct(x, t[1..], m);
    }
  }

  /**
   * The stable ascending sort by `expireAt` that `Array.prototype.sort`
   * performs with the comparator `previous.expireAt - current.expireAt`.
   */
  function SortByExpiry(s: seq<string>, m: map<string, CacheValue>): (r: seq<string>)
    requires forall k :: k in s ==> k in m
    ensures |r| == |s|
    ensures forall k :: k in r <==> k in s
  {
    if s == [] then []
    else InsertByExpiry(s[0], SortByExpiry(s[1..], m), m)
  }

  lemma {:induction false} SortSortedDistinct(s: seq<string>, m: map<string, CacheValue>)
    requires forall k :: k in s ==> k in m
    ensures SortedByExpiry(SortByExpiry(s, m), m)
    ensures Distinct(s) ==> Distinct(SortByExpiry(s, m))
  {
    if s != [] {
      SortSortedDistinct(s[1..], m);
      InsertSorted(s[0], SortByExpiry(s[1..], m), m);
      if Distinct(s) {
        assert s[0] !in s[1..];
        InsertDistinct(s[0], SortByExpiry(s[1..], m), m);
      }
    }
  }

  /** `a` occurs in `r` at some position before one where `b` occurs. */
  ghost predicate Before(r: seq<string>, a: string, b: string)
  {
    exists p, q :: 0 <= p < q < |r| && r[p] == a && r[q] == b
  }

  lemma BeforeCons(h: string, rest: seq<string>, a: string, b: string)
    requires Before(rest, a, b)
    ensures Before([h] + rest, a, b)
  {
    var p, q :| 0 <= p < q < |rest| && rest[p] == a && rest[q] == b;
    assert ([h] + rest)[p + 1] == a && ([h] + rest)[q + 1] == b;
  }

  /** Inserting a key keeps the relative order of the keys already there. */
  lemma {:induction false} InsertKeepsOrder(x: string, t: seq<string>, m: map<string, CacheValue>, a: string, b: string)
    requires x in m && forall k :: k in t ==> k in m
    requires Before(t, a, b)
    ensures Before(InsertByExpiry(x, t, m), a, b)
  {
    var r := InsertByExpiry(x, t, m);
    var p, q :| 0 <= p < q < |t| && t[p] == a && t[q] == b;
    if m[x].expireAt <= m[t[0]].expireAt {
      assert r[p + 1] == a && r[q + 1] == b;
    } else {
      var rest := InsertByExpiry(x, t[1..], m);
      assert r == [t[0]] + rest;
      if p == 0 {
        assert b in t[1..] by { assert t[1..][q - 1] == b; }
        assert b in rest;
        var j :| 0 <= j < |rest| && rest[j] == b;
        assert r[0] == a && r[j + 1] == b;
      } else {
        assert t[1..][p - 1] == a && t[1..][q - 1] == b;
        InsertKeepsOrder(x, t[1..], m, a, b);
        BeforeCons(t[0], rest, a, b);
      }
    }
  }

  /** Inserting into a sorted list puts the new key before every key with the same `expireAt`. */
  lemma {:induction false} InsertBeforeEqual(x: string, t: seq<string>, m: map<string, CacheValue>, b: string)
    requires x in m && forall k :: k in t ==> k in m
    requires SortedByExpiry(t, m)
    requires b in t && m[b].expireAt == m[x].expireAt
    ensures Before(InsertByExpiry(x, t, m), x, b)
  {
    var r := InsertByExpiry(x, t, m);
    var j :| 0 <= j < |t| && t[j] == b;
    if m[x].expireAt <= m[t[0]].expireAt {
      assert r[0] == x && r[j + 1] == b;
    } else {
      var rest := InsertByExpiry(x, t[1..], m);
      assert r == [t[0]] + rest;
      assert j != 0;
      assert t[1..][j - 1] == b;
      InsertBeforeEqual(x, t[1..], m, b);
      BeforeCons(t[0], rest, x, b);
    }
  }

  /**
   * The sort is stable: of two keys with the same `expireAt`, the one
   * earlier in the snapshot stays earlier, as ECMAScript requires of
   * `Array.prototype.sort`.
   */
  lemma {:induction false} SortIsStable(s: seq<string>, m: map<string, CacheValue>)
    requires forall k :: k in s ==> k in m
    ensures forall i, j :: 0 <= i < j < |s| && m[s[i]].expireAt == m[s[j]].expireAt ==>
      Before(SortByExpiry(s, m), s[i], s[j])
  {
    if s != [] {
      var t := SortByExpiry(s[1..], m);
      SortIsStable(s[1..], m);
      SortSortedDistinct(s[1..], m);
      forall i, j | 0 <= i < j < |s| && m[s[i]].expireAt == m[s[j]].expireAt
        ensures Before(SortByExpiry(s, m), s[i], s[j])
      {
        assert s[1..][j - 1] == s[j];
        if i == 0 {
          assert s[j] in t;
          InsertBeforeEqual(s[0], t, m, s[j]);
        } else {
          assert s[1..][i - 1] == s[i];
          InsertKeepsOrder(s[0], t, m, s[i], s[j]);
        }
      }
    }
  }

  /** The sort is a permutation of the snapshot. */
  lemma {:induction false} SortPermutes(s: seq<string>, m: map<string, CacheValue>)
    requires forall k :: k in s ==> k in m
    ensures multiset(SortByExpiry(s, m)) == multiset(s)
  {
    if s != [] {
      SortPermutes(s[1..], m);
      InsertPermutes(s[0], SortByExpiry(s[1..], m), m);
      assert s == [s[0]] + s[1..];
      assert multiset(s) == multiset(s[1..]) + multiset{s[0]};
    }
  }

  lemma {:induction false} InsertPermutes(x: string, t: seq<string>, m: map<string, CacheValue>)
    requires x in m && forall k :: k in t ==> k in m
    ensures multiset(InsertByExpiry(x, t, m)) == multiset(t) + multiset{x}
  {
    if t != [] && m[x].expireAt > m[t[0]].expireAt {
      InsertPermutes(x, t[1..], m);
      assert t == [t[0]] + t[1..];
    }
  }

  /** The number of entries `clean` removes: `floor(size * num / den)`, at most `size`. */
  function EvictCount(size: nat, num: nat, den: nat): (n: nat)
    requires den > 0
    ensures n <= size
    ensures num <= den ==> n == size * num / den
  {
    var f := size * num / den;
    if f < size then f else size
  }

  /**
   * The keys `clean` removes: the snapshot in insertion order, sorted by
   * `expireAt` and cut to its first `floor(size * num / den)` keys (`slice`
   * stops at the end of the array).
   */
  function Evicted(order: seq<string>, entries: map<string, CacheValue>, num: nat, den: nat): (gone: seq<string>)
    requires den > 0
    requires forall k :: k in order ==> k in entries
    ensures |gone| <= EvictCount(|entries|, num, den)
    ensures forall k :: k in gone ==> k in order
  {
    var sorted := SortByExpiry(order, entries);
    var n := EvictCount(|entries|, num, den);
    sorted[..if n < |sorted| then n else |sorted|]
  }

  /** The default `percent = 0.3` of `clean`, as a fraction. */
  const PercentNum: nat := 3
  const PercentDen: nat := 10

  /**
   * The key order and the entries after `set(key, value)`: a default
   * `clean` first when `size >= maxSize`, then an insert that keeps the
   * position of a key still present and appends a new one.
   */
  function AfterSet(order: seq<string>, entries: map<string, CacheValue>, maxSize: int,
                    key: string, value: CacheValue): (r: (seq<string>, map<string, CacheValue>))
    requires forall k :: k in order ==> k in entries
    ensures key in r.1 && r.1[key] == value
    ensures forall k :: k in r.1 && k != key ==> k in entries && r.1[k] == entries[k]
    ensures |entries| < maxSize ==>
      r == (if key in entries then order else order + [key], entries[key := value])
    ensures forall k :: k in r.0 ==> k == key || k in order
  {
    WithoutNothing(order);
    assert MapWithout(entries, []) == entries;
    var gone := if |entries| >= maxSize then Evicted(order, entries, PercentNum, PercentDen) else [];
    var e := MapWithout(entries, gone);
    var o := Without(order, gone);
    (if key in e then o else o + [key], e[key := value])
  }

  /**
   * The size a cache with this `maxSize` never outgrows through `set`:
   * `maxSize`, or four when `maxSize` is smaller, because `clean` removes
   * nothing from fewer than four entries.
   */
  function Capacity(maxSize: int): int
  {
    if maxSize < 4 then 4 else maxSize
  }

  /** `set` keeps a cache that is within its capacity within it. */
  lemma AfterSetWithinCapacity(order: seq<string>, entries: map<string, CacheValue>, maxSize: int,
                              key: string, value: CacheValue)
    requires Consistent(order, entries)
    ensures |entries| <= Capacity(maxSize) ==>
      |AfterSet(order, entries, maxSize, key, value).1| <= Capacity(maxSize)
  {
    var gone := if |entries| >= maxSize then Evicted(order, entries, PercentNum, PercentDen) else [];
    var e := MapWithout(entries, gone);
    if |entries| >= maxSize {
      EvictedCount(order, entries, PercentNum, PercentDen);
      DefaultEvictsNothingBelowFour(|entries|);
    } else {
      assert e == entries;
    }
    assert |e[key := value]| <= |e| + 1;
  }

  class TelegramClientCache {
    const maxSize: int
    var order: seq<string>
    var entries: map<string, CacheValue>

    ghost predicate Valid()
      reads this
    {
      Consistent(order, entries)
    }

    constructor (maxSize: int)
      ensures Valid()
      ensures this.maxSize == maxSize && entries == map[] && order == []
    {
      this.maxSize := maxSize;
      order := [];
      entries := map[];
    }

    /** `size >= maxSize`. */
    predicate IsStorageCrowded()
      reads this
    {
      |entries| >= maxSize
    }

    function Has(key: string): (r: bool)
      reads this
      ensures r <==> key in entries
    {
      key in entries
    }

    function Get(key: string): (r: Option<CacheValue>)
      reads this
      ensures r.Some? <==> key in entries
      ensures r.Some? ==> r.value == entries[key]
    {
      if key in entries then Some(entries[key]) else None
    }

    /** A missing key counts as expired; otherwise expired once `now` is past `expireAt`. */
    function IsExpired(key: string, now: int): (r: bool)
      reads this
      ensures key !in entries ==> r
      ensures key in entries ==> (r <==> now > entries[key].expireAt)
    {
      match Get(key)
      case None => true
      case Some(v) => now > v.expireAt
    }

    method Delete(key: string)
      requires Valid()
      modifies this
      ensures Valid()
      ensures entries == old(entries) - {key}
      ensures order == Without(old(order), [key])
    {
      DistinctWithout(order, [key]);
      entries := entries - {key};
      order := Without(order, [key]);
    }

    /** Raises the count of a present key by one; does nothing for a missing key. */
    method Increment(key: string)
      requires Valid()
      modifies this
      ensures Valid()
      ensures order == old(order)
      ensures key in old(entries) ==>
        entries == old(entries)[key := old(entries)[key].(count := old(entries)[key].count + 1)]
      ensures key !in old(entries) ==> entries == old(entries)
    {
      var cached := Get(key);
      if cached.Some? {
        entries := entries[key := cached.value.(count := cached.value.count + 1)];
      }
    }

    /**
     * Removes the `floor(size * num / den)` entries closest to expiry, ties
     * going to the entry inserted first.
     */
    method Clean(num: nat, den: nat)
      requires Valid() && den > 0
      modifies this
      ensures Valid()
      ensures entries == MapWithout(old(entries), Evicted(old(order), old(entries), num, den))
      ensures order == Without(old(order), Evicted(old(order), old(entries), num, den))
    {
      var victims := Evicted(order, entries, num, den);
      WithoutNothing(order);
      var i := 0;
      while i < |victims|
        invariant 0 <= i <= |victims|
        invariant Valid()
        invariant entries == MapWithout(old(entries), victims[..i])
        invariant order == Without(old(order), victims[..i])
      {
        WithoutStep(old(order), victims[..i], victims[i]);
        MapWithoutStep(old(entries), victims[..i], victims[i]);
        TakeStep(victims, i);
        Delete(victims[i]);
        i := i + 1;
      }
      assert victims[..i] == victims;
    }

    /** Evicts first when the storage is crowded, then stores `value` under `key`. */
    method Set(key: string, value: CacheValue)
      requires Valid()
      modifies this
      ensures Valid()
      ensures (order, entries) == AfterSet(old(order), old(entries), maxSize, key, value)
      ensures Get(key) == Some(value)
      ensures old(|entries|) <= Capacity(maxSize) ==> |entries| <= Capacity(maxSize)
    {
      AfterSetWithinCapacity(order, entries, maxSize, key, value);
      WithoutNothing(order);
      assert MapWithout(entries, []) == entries;
      if IsStorageCrowded() {
        Clean(PercentNum, PercentDen);
      }
      if key !in entries {
        AppendDistinct(order, key);
        order := order + [key];
      }
      entries := entries[key := value];
    }
  }

  /** A key list that is consistent with a map is as long as the map is large. */
  lemma ConsistentSize(order: seq<string>, entries: map<string, CacheValue>)
    requires Consistent(order, entries)
    ensures |order| == |entries|
  {
    DistinctCard(order);
    assert (set k | k in order) == entries.Keys;
  }

  /** A list of distinct keys has as many keys as elements. */
  lemma {:induction false} DistinctCard(s: seq<string>)
    requires Distinct(s)
    ensures |set k | k in s| == |s|
  {
    if s != [] {
      DistinctCard(s[1..]);
      assert (set k | k in s) == (set k | k in s[1..]) + {s[0]};
      assert s[0] !in s[1..];
    }
  }

  /**
   * `clean` removes exactly `floor(size * num / den)` distinct entries (all
   * of them when the fraction exceeds one) and keeps every other entry.
   */
  lemma EvictedCount(order: seq<string>, entries: map<string, CacheValue>, num: nat, den: nat)
    requires Consistent(order, entries) && den > 0
    ensures var gone := Evicted(order, entries, num, den);
      && |gone| == EvictCount(|entries|, num, den)
      && Distinct(gone)
      && (forall k :: k in gone ==> k in entries)
      && |MapWithout(entries, gone)| == |entries| - EvictCount(|entries|, num, den)
  {
    ConsistentSize(order, entries);
    var sorted := SortByExpiry(order, entries);
    SortSortedDistinct(order, entries);
    var gone := Evicted(order, entries, num, den);
    assert gone == sorted[..EvictCount(|entries|, num, den)];
    assert forall k :: k in gone ==> k in sorted;
    MapWithoutSize(entries, gone);
  }

  /** Deleting distinct stored keys shrinks a map by exactly their number. */
  lemma MapWithoutSize(m: map<string, CacheValue>, gone: seq<string>)
    requires Distinct(gone) && forall k :: k in gone ==> k in m
    ensures |MapWithout(m, gone)| == |m| - |gone|
  {
    DistinctCard(gone);
    var g := set k | k in gone;
    var r := MapWithout(m, gone);
    assert r.Keys == m.Keys - g;
    assert g <= m.Keys;
    assert m.Keys == r.Keys + g;
    assert |m.Keys| == |r.Keys| + |g|;
  }

  /**
   * Every key `clean` removes expires no later than every key it keeps.
   */
  lemma EvictedAreSoonest(order: seq<string>, entries: map<string, CacheValue>, num: nat, den: nat)
    requires Consistent(order, entries) && den > 0
    ensures var gone := Evicted(order, entries, num, den);
      forall g, k :: g in gone && k in MapWithout(entries, gone) ==> entries[g].expireAt <= entries[k].expireAt
  {
    var sorted := SortByExpiry(order, entries);
    SortSortedDistinct(order, entries);
    var gone := Evicted(order, entries, num, den);
    forall g, k | g in gone && k in MapWithout(entries, gone)
      ensures entries[g].expireAt <= entries[k].expireAt
    {
      var i :| 0 <= i < |gone| && gone[i] == g;
      assert k in sorted;
      var j :| 0 <= j < |sorted| && sorted[j] == k;
      assert sorted[i] == g;
    }
  }

  /** With the default fraction 0.3, nothing is removed exactly when fewer than four entries are stored. */
  lemma DefaultEvictsNothingBelowFour(size: nat)
    ensures EvictCount(size, PercentNum, PercentDen) == 0 <==> size < 4
    ensures size >= 4 ==> EvictCount(size, PercentNum, PercentDen) >= 1
  {
  }

  lemma AppendDistinct(s: seq<string>, x: string)
    requires Distinct(s) && x !in s
    ensures Distinct(s + [x])
  {
  }

  lemma DistinctWithout(s: seq<string>, gone: seq<string>)
    requires Distinct(s)
    ensures Distinct(Without(s, gone))
  {
    if s != [] {
      DistinctWithout(s[1..], gone);
    }
  }

  lemma {:induction false} WithoutNothing(s: seq<string>)
    ensures Without(s, []) == s
  {
    if s != [] {
      WithoutNothing(s[1..]);
    }
  }

  lemma TakeStep(s: seq<string>, i: nat)
    requires i < |s|
    ensures s[..i + 1] == s[..i] + [s[i]]
  {
  }

  lemma MapWithoutStep(m: map<string, CacheValue>, gone: seq<string>, x: string)
    ensures MapWithout(m, gone) - {x} == MapWithout(m, gone + [x])
  {
    assert forall k :: k in gone + [x] <==> k in gone || k == x;
  }

  lemma {:induction false} WithoutStep(s: seq<string>, gone: seq<string>, x: string)
    ensures Without(Without(s, gone), [x]) == Without(s, gone + [x])
  {
    if s != [] {
      var w := Without(s[1..], gone);
      WithoutStep(s[1..], gone, x);
      assert (s[0] in gone + [x]) == (s[0] in gone || s[0] == x);
      if s[0] !in gone {
        assert Without(s, gone) == [s[0]] + w;
        assert ([s[0]] + w)[1..] == w;
      } else {
        assert Without(s, gone) == w;
      }
    }
  }
}
