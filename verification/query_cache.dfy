/** The analytics query cache: an in-memory table from a normalized
    question to the SQL resolved for it, with a time-to-live measured from
    the moment the entry was stored. Reads that find an entry update its hit
    counter and last-access time; reads that find an expired entry delete it.

    The table is keyed by `md5(normalized question)`; the hash is taken to
    be injective, so the model keys the map by the normalized text itself.
    Time is an integer number of seconds passed in by the caller. */
module QueryCache {
  import opened Common

  // ---------------------------------------------------------------------
  // Keys

  /** Drops every whitespace character. */
  function RemoveSpaces(s: string): (r: string)
    ensures forall i :: 0 <= i < |r| ==> !IsSpace(r[i])
    ensures forall i :: 0 <= i < |r| ==> r[i] in s
  {
    if s == [] then []
    else (if IsSpace(s[0]) then [] else [s[0]]) + RemoveSpaces(s[1..])
  }

  /** `_normalize_question`: `''.join(q.lower().strip().split())`, i.e. the
      lower-cased question with all whitespace removed. */
  function NormalizeQuestion(q: string): (k: string)
    ensures forall i :: 0 <= i < |k| ==> !IsSpace(k[i]) && !IsUpperChar(k[i])
  {
    var lowered := Lower(q);
    assert forall i :: 0 <= i < |lowered| ==> !IsUpperChar(lowered[i]);
    RemoveSpaces(lowered)
  }

  /** `_get_cache_key` (the md5 digest is taken to be injective). */
  function CacheKey(q: string): string {
    NormalizeQuestion(q)
  }

  lemma {:induction false} RemoveSpacesConcat(a: string, b: string)
    ensures RemoveSpaces(a + b) == RemoveSpaces(a) + RemoveSpaces(b)
  {
    if a == [] {
      assert a + b == b;
    } else {
      assert (a + b)[1..] == a[1..] + b;
      RemoveSpacesConcat(a[1..], b);
    }
  }

  lemma {:induction false} RemoveSpacesNoSpace(s: string)
    requires forall i :: 0 <= i < |s| ==> !IsSpace(s[i])
    ensures RemoveSpaces(s) == s
  {
    if s != [] {
      RemoveSpacesNoSpace(s[1..]);
    }
  }

  /** Normalizing twice is normalizing once: a normalized question is its own key. */
  lemma NormalizeIdempotent(q: string)
    ensures NormalizeQuestion(NormalizeQuestion(q)) == NormalizeQuestion(q)
  {
    var k := NormalizeQuestion(q);
    assert Lower(k) == k;
    RemoveSpacesNoSpace(k);
  }

  /** A question already in normal form (no whitespace, no upper-case
      letter) is its own key. With NormalizeIgnoresCase and
      NormalizeIgnoresSpace this pins the key of every question: drop its
      whitespace and lower-case it. */
  lemma NormalFormIsOwnKey(q: string)
    requires forall i :: 0 <= i < |q| ==> !IsSpace(q[i]) && !IsUpperChar(q[i])
    ensures NormalizeQuestion(q) == q
  {
    assert Lower(q) == q;
    RemoveSpacesNoSpace(q);
  }

  /** Two questions that differ only in letter case share one cache key. */
  lemma NormalizeIgnoresCase(q: string)
    ensures NormalizeQuestion(Lower(q)) == NormalizeQuestion(q)
  {
    assert Lower(Lower(q)) == Lower(q);
  }

  lemma RemoveSpacesDropsSpace(x: string, c: char, y: string)
    requires IsSpace(c)
    ensures RemoveSpaces(x + [c] + y) == RemoveSpaces(x + y)
  {
    RemoveSpacesConcat(x + [c], y);
    RemoveSpacesConcat(x, [c]);
    RemoveSpacesConcat(x, y);
    assert RemoveSpaces([c]) == [];
  }

  /** Inserting a whitespace character anywhere does not change the key. */
  lemma NormalizeIgnoresSpace(a: string, c: char, b: string)
    requires IsSpace(c)
    ensures NormalizeQuestion(a + [c] + b) == NormalizeQuestion(a + b)
  {
    var la, lb := Lower(a), Lower(b);
    assert Lower(a + [c] + b) == la + [c] + lb by {
      LowerConcat(a + [c], b);
      LowerConcat(a, [c]);
      assert Lower([c]) == [c];
    }
    LowerConcat(a, b);
    RemoveSpacesDropsSpace(la, c, lb);
  }

  // ---------------------------------------------------------------------
  // Entries and statistics

  datatype Entry = Entry(question: string, sql: string, timestamp: int, hits: nat, lastAccessed: int)

  /** One item of `most_popular`. */
  datatype Popular = Popular(question: string, hits: nat)

  /** `get_stats` without the formatted hit-rate percentage. */
  datatype CacheStats = CacheStats(totalCachedQuery: nat, totalCacheHits: nat, mostPopular: seq<Popular>)

  predicate NoDuplicates<T(==)>(s: seq<T>) {
    forall i, j :: 0 <= i < j < |s| ==> s[i] != s[j]
  }

  lemma NoDuplicatesCons<T>(a: T, t: seq<T>)
    ensures NoDuplicates([a] + t) <==> a !in t && NoDuplicates(t)
  {
    var s := [a] + t;
    if a !in t && NoDuplicates(t) {
      forall i, j | 0 <= i < j < |s| ensures s[i] != s[j] {
        assert s[j] == t[j - 1];
        if i > 0 {
          assert s[i] == t[i - 1];
        }
      }
    }
    if NoDuplicates(s) {
      forall i, j | 0 <= i < j < |t| ensures t[i] != t[j] {
        assert t[i] == s[i + 1] && t[j] == s[j + 1];
      }
      forall k | 0 <= k < |t| ensures t[k] != a {
        assert t[k] == s[k + 1] && a == s[0];
        assert s[0] != s[k + 1];
      }
    }
  }

  /** s with every occurrence of x removed (the dict's order after `del`). */
  function Without(s: seq<string>, x: string): (r: seq<string>)
    ensures forall y :: y in r <==> y in s && y != x
    ensures NoDuplicates(s) ==> NoDuplicates(r)
  {
    if s == [] then []
    else
      var t := Without(s[1..], x);
      NoDuplicatesCons(s[0], s[1..]);
      if s[0] == x then t
      else
        NoDuplicatesCons(s[0], t);
        [s[0]] + t
  }

  lemma {:induction false} WithoutAbsent(s: seq<string>, x: string)
    requires x !in s
    ensures Without(s, x) == s
  {
    if s != [] {
      WithoutAbsent(s[1..], x);
      assert s == [s[0]] + s[1..];
    }
  }

  lemma {:induction false} DistinctCardinality(s: seq<string>)
    requires NoDuplicates(s)
    ensures |set x | x in s| == |s|
  {
    if s != [] {
      DistinctCardinality(s[1..]);
      assert (set x | x in s) == {s[0]} + (set x | x in s[1..]);
      assert s[0] !in (set x | x in s[1..]);
    }
  }

  function SumHits(items: seq<Popular>): nat {
    if items == [] then 0 else items[0].hits + SumHits(items[1..])
  }

  predicate SortedByHits(s: seq<Popular>) {
    forall i, j :: 0 <= i < j < |s| ==> s[i].hits >= s[j].hits
  }

  /** The items of s with exactly h hits, in their order in s. */
  function WithHits(s: seq<Popular>, h: nat): seq<Popular> {
    if s == [] then []
    else (if s[0].hits == h then [s[0]] else []) + WithHits(s[1..], h)
  }

  /** Puts x after every item with at least as many hits. */
  function InsertByHits(x: Popular, s: seq<Popular>): seq<Popular> {
    if s == [] then [x]
    else if s[0].hits < x.hits then [x] + s
    else [s[0]] + InsertByHits(x, s[1..])
  }

  /** `sorted(items, key=hits, reverse=True)`: a stable sort by hits, highest first. */
  function SortByHits(s: seq<Popular>): seq<Popular> {
    if s == [] then [] else InsertByHits(s[|s| - 1], SortByHits(s[..|s| - 1]))
  }

  lemma {:induction false} InsertMultiset(x: Popular, s: seq<Popular>)
    ensures multiset(InsertByHits(x, s)) == multiset(s) + multiset{x}
  {
    if s != [] && s[0].hits >= x.hits {
      InsertMultiset(x, s[1..]);
      assert s == [s[0]] + s[1..];
    }
  }

  lemma {:induction false} InsertKeepsSorted(x: Popular, s: seq<Popular>)
    requires SortedByHits(s)
    ensures SortedByHits(InsertByHits(x, s))
  {
    if s == [] {
    } else if s[0].hits < x.hits {
      var r := [x] + s;
      forall i, j | 0 <= i < j < |r| ensures r[i].hits >= r[j].hits {
        assert r[j] == s[j - 1];
        if i > 0 {
          assert r[i] == s[i - 1];
        }
      }
    } else {
      var t := InsertByHits(x, s[1..]);
      InsertKeepsSorted(x, s[1..]);
      InsertMultiset(x, s[1..]);
      var r := [s[0]] + t;
      forall i, j | 0 <= i < j < |r| ensures r[i].hits >= r[j].hits {
        assert r[j] == t[j - 1];
        if i > 0 {
          assert r[i] == t[i - 1];
        } else {
          assert t[j - 1] in multiset(s[1..]) + multiset{x};
          if t[j - 1] != x {
            var k :| 0 <= k < |s[1..]| && s[1..][k] == t[j - 1];
            assert s[k + 1] == t[j - 1];
          }
        }
      }
    }
  }

  lemma {:induction false} InsertWithHits(x: Popular, s: seq<Popular>, h: nat)
    requires SortedByHits(s)
    ensures WithHits(InsertByHits(x, s), h) == WithHits(s, h) + (if x.hits == h then [x] else [])
  {
    if s == [] {
    } else if s[0].hits < x.hits {
      // every item of s has fewer hits than x, so none of them has x's count
      if x.hits == h {
        NoneWithHits(s, h);
        assert WithHits([x] + s, h) == [x] + WithHits(s, h);
      } else {
        assert ([x] + s)[1..] == s;
      }
    } else {
      InsertWithHits(x, s[1..], h);
      assert ([s[0]] + InsertByHits(x, s[1..]))[1..] == InsertByHits(x, s[1..]);
    }
  }

  lemma {:induction false} NoneWithHits(s: seq<Popular>, h: nat)
    requires SortedByHits(s) && s != [] && s[0].hits < h
    ensures WithHits(s, h) == []
  {
    if |s| > 1 {
      NoneWithHits(s[1..], h);
    }
  }

  lemma {:induction false} WithHitsAppend(a: seq<Popular>, b: seq<Popular>, h: nat)
    ensures WithHits(a + b, h) == WithHits(a, h) + WithHits(b, h)
  {
    if a == [] {
      assert a + b == b;
    } else {
      var head := if a[0].hits == h then [a[0]] else [];
      calc {
        WithHits(a + b, h);
      == { assert (a + b)[0] == a[0]; assert (a + b)[1..] == a[1..] + b; }
        head + WithHits(a[1..] + b, h);
      == { WithHitsAppend(a[1..], b, h); }
        head + (WithHits(a[1..], h) + WithHits(b, h));
      ==
        (head + WithHits(a[1..], h)) + WithHits(b, h);
      }
    }
  }

  /** The sort orders by hits (highest first) and is a permutation. */
  lemma {:induction false} SortByHitsSorted(s: seq<Popular>)
    ensures SortedByHits(SortByHits(s))
    ensures multiset(SortByHits(s)) == multiset(s)
    ensures |SortByHits(s)| == |s|
  {
    if s != [] {
      SortByHitsSorted(s[..|s| - 1]);
      InsertKeepsSorted(s[|s| - 1], SortByHits(s[..|s| - 1]));
      InsertMultiset(s[|s| - 1], SortByHits(s[..|s| - 1]));
      Snoc(s);
      assert |multiset(SortByHits(s))| == |multiset(s)|;
    }
  }

  /** The sort is stable: items with equal hits keep their relative order. */
  lemma {:induction false} SortByHitsStable(s: seq<Popular>, h: nat)
    ensures WithHits(SortByHits(s), h) == WithHits(s, h)
  {
    if s != [] {
      var init := s[..|s| - 1];
      Snoc(s);
      SortByHitsSorted(init);
      SortByHitsStable(init, h);
      InsertWithHits(s[|s| - 1], SortByHits(init), h);
      WithHitsAppend(init, [s[|s| - 1]], h);
    }
  }

  // ---------------------------------------------------------------------
  // Reads and writes on the table as values

  /** What `get` returns on the table c at time now: the stored SQL of a
      present entry at most ttl seconds old. */
  function Fresh(c: map<string, Entry>, key: string, now: int, ttl: int): (r: Option<string>)
    ensures r.Some? <==> key in c && now - c[key].timestamp <= ttl
    ensures r.Some? ==> r.value == c[key].sql
  {
    if key in c && !(now - c[key].timestamp > ttl) then Some(c[key].sql) else None
  }

  /** The entry `set` stores. */
  function Stored(question: string, sql: string, now: int): Entry {
    Entry(question, sql, now, 0, now)
  }

  /** Two questions with the same lower-cased, whitespace-free form share one
      entry: after `set(q1, s)` at t0, `get(q2)` at t1 returns s as long as
      t1 - t0 <= ttl, whatever the table held before. */
  lemma SetThenGet(c: map<string, Entry>, q1: string, q2: string, s: string, t0: int, t1: int, ttl: int)
    requires NormalizeQuestion(q1) == NormalizeQuestion(q2)
    ensures Fresh(c[CacheKey(q1) := Stored(q1, s, t0)], CacheKey(q2), t1, ttl) == if t1 - t0 <= ttl then Some(s) else None
  {
  }

  /** The table after `get(key)` at time now: an expired entry is deleted,
      a fresh one has its hit counter bumped and its access time set, and no
      other entry changes. */
  function Touch(c: map<string, Entry>, key: string, now: int, ttl: int): (r: map<string, Entry>)
    ensures key in r <==> Fresh(c, key, now, ttl).Some?
    ensures forall k :: k != key ==> (k in r <==> k in c) && (k in r ==> r[k] == c[k])
    ensures key in r ==> r[key].sql == c[key].sql && r[key].timestamp == c[key].timestamp &&
                         r[key].hits == c[key].hits + 1 && r[key].lastAccessed == now
  {
    if key !in c then c
    else if now - c[key].timestamp > ttl then c - {key}
    else c[key := c[key].(hits := c[key].hits + 1, lastAccessed := now)]
  }

  /** Reading never changes what a later read returns: a hit keeps the
      entry's timestamp, so hits never extend the lifetime, which runs from
      the last `set`; an expired entry stays gone. */
  lemma ReadsDoNotExtendLifetime(c: map<string, Entry>, key: string, t: int, later: int, ttl: int)
    requires t <= later
    ensures Fresh(Touch(c, key, t, ttl), key, later, ttl) == Fresh(c, key, later, ttl)
  {
  }

  /** The iteration order after `get(key)`: an expired key leaves it. */
  function OrderAfterGet(order: seq<string>, c: map<string, Entry>, key: string, now: int, ttl: int): seq<string> {
    if key in c && Fresh(c, key, now, ttl).None? then Without(order, key) else order
  }

  /** The iteration order after `set(key)`: a new key goes last, an
      overwritten one keeps its place. */
  function OrderAfterSet(order: seq<string>, c: map<string, Entry>, key: string): seq<string> {
    if key in c then order else order + [key]
  }

  /** A key stored right after a read that missed ends up last in the
      iteration order, whether it was absent or had expired. */
  lemma StoreAfterMissGoesLast(order: seq<string>, c: map<string, Entry>, key: string, now: int, ttl: int)
    requires forall k :: k in c <==> k in order
    requires Fresh(c, key, now, ttl).None?
    ensures OrderAfterSet(OrderAfterGet(order, c, key, now, ttl), Touch(c, key, now, ttl), key) == Without(order, key) + [key]
  {
    if key !in c {
      WithoutAbsent(order, key);
    }
  }

  /** A table whose keys are exactly the distinct keys of the order has as
      many entries as the order has keys. */
  lemma KeysCardinality(c: map<string, Entry>, order: seq<string>)
    requires (forall k :: k in c <==> k in order) && NoDuplicates(order)
    ensures |c| == |order|
  {
    assert c.Keys == set k | k in order;
    DistinctCardinality(order);
  }

  /** The first n items of the sort are in hit order and each is an item. */
  lemma TopOfSorted(items: seq<Popular>, n: nat)
    requires n <= |items|
    ensures |SortByHits(items)| == |items|
    ensures var top := SortByHits(items)[..n];
      SortedByHits(top) && forall p :: p in top ==> p in items
  {
    var sorted := SortByHits(items);
    SortByHitsSorted(items);
    assert forall p :: p in sorted[..n] ==> p in multiset(sorted);
  }

  // ---------------------------------------------------------------------
  // The cache object

  class QueryCache {
    /** `self.cache`: key -> entry. */
    var cache: map<string, Entry>
    /** The dict's iteration order: keys in the order they were inserted. */
    var order: seq<string>
    /** `self.ttl` in seconds. */
    const ttl: int

    ghost predicate Valid()
      reads this
    {
      (forall k :: k in cache <==> k in order) && NoDuplicates(order)
    }

    /** `QueryCache(ttl_hours)`: an empty cache. */
    constructor (ttlHours: int)
      ensures Valid()
      ensures cache == map[] && order == [] && ttl == ttlHours * 3600
    {
      cache := map[];
      order := [];
      ttl := ttlHours * 3600;
    }

    /** `get(question)` at time `now`. An absent key is a miss that changes
        nothing; an entry older than the ttl is deleted and reported as a miss
        (an entry exactly ttl old still hits); otherwise the entry's hits go up
        by one, its last-access time becomes `now`, and its SQL is returned.
        Its timestamp is untouched, so hits never extend its lifetime. */
    method Get(question: string, now: int) returns (sql: Option<string>)
      requires Valid()
      modifies this
      ensures Valid()
      ensures sql == Fresh(old(cache), CacheKey(question), now, ttl)
      ensures cache == Touch(old(cache), CacheKey(question), now, ttl)
      ensures order == OrderAfterGet(old(order), old(cache), CacheKey(question), now, ttl)
    {
      var key := CacheKey(question);
      if key !in cache {
        return None;
      }
      var entry := cache[key];
      if now - entry.timestamp > ttl {
        cache := cache - {key};
        order := Without(order, key);
        return None;
      }
      cache := cache[key := entry.(hits := entry.hits + 1, lastAccessed := now)];
      sql := Some(entry.sql);
    }

    /** `set(question, sql)` at time `now`: the entry is overwritten whatever
        it held, with zero hits and a fresh timestamp; no other entry changes
        and no key is ever removed. An overwritten key keeps its place in the
        iteration order; a new key goes last. */
    method Set(question: string, sql: string, now: int)
      requires Valid()
      modifies this
      ensures Valid()
      ensures cache == old(cache)[CacheKey(question) := Stored(question, sql, now)]
      ensures order == OrderAfterSet(old(order), old(cache), CacheKey(question))
      ensures old(cache).Keys <= cache.Keys
    {
      var key := CacheKey(question);
      if key !in cache {
        order := order + [key];
      }
      cache := cache[key := Stored(question, sql, now)];
    }

    /** The entries as `most_popular` items, in iteration order. */
    function Items(): (items: seq<Popular>)
      reads this
      requires Valid()
      ensures |items| == |order|
      ensures forall i :: 0 <= i < |order| ==> items[i] == Popular(cache[order[i]].question, cache[order[i]].hits)
    {
      seq(|order|, i requires 0 <= i < |order| && order[i] in cache reads this =>
        Popular(cache[order[i]].question, cache[order[i]].hits))
    }

    /** `get_stats`: the number of entries, the sum of their hits, and the
        (at most five) entries with the most hits, highest first, ties in
        insertion order. */
    function GetStats(): (s: CacheStats)
      reads this
      requires Valid()
      ensures s.totalCachedQuery == |cache|
      ensures s.totalCacheHits == SumHits(Items())
      ensures |s.mostPopular| == Min(5, |cache|)
      ensures SortedByHits(s.mostPopular)
      ensures forall p :: p in s.mostPopular ==> p in Items()
      ensures |s.mostPopular| <= |SortByHits(Items())| && s.mostPopular == SortByHits(Items())[..|s.mostPopular|]
    {
      var items := Items();
      KeysCardinality(cache, order);
      TopOfSorted(items, Min(5, |items|));
      CacheStats(|order|, SumHits(items), SortByHits(items)[..Min(5, |items|)])
    }
  }
}
