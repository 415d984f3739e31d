/** The cache of resolved locations: backend/src/utils/location.js, lines 29-46. A JavaScript `Map`
    iterates in insertion order, so it is a sequence of entries with different keys. */
module LocationCache {
  import opened BillingTypes
  import Sequences
  import IpAddress

  const MISS_TTL := 300000

  datatype Entry<K, V> = Entry(key: K, value: Option<V>, expires: Time)

  /** One call of the location database: what it said about `key`, and when. */
  datatype Lookup<K, V> = Lookup(key: K, value: Option<V>, at: Time)

  /** How long an answer may be reused: misses for five minutes at most. */
  function Life<V>(value: Option<V>, ttl: Time): Time {
    if value.Some? || ttl <= MISS_TTL then ttl else MISS_TTL
  }

  function Keys<K, V>(entries: seq<Entry<K, V>>): (keys: seq<K>)
    ensures |keys| == |entries|
  {
    seq(|entries|, i requires 0 <= i < |entries| => entries[i].key)
  }

  /** Lines 32-33: what the cache is asked for. */
  function PublicAddress(value: Option<string>, isIP: string -> nat): Option<string> {
    var ip := if value.Some? then IpAddress.Normalize(value.value, isIP) else None;
    if IpAddress.IsPublic(ip, isIP) then ip else None
  }

  // The order that a cache without a bound would have

  function Without<K(==)>(keys: seq<K>, k: K): seq<K> {
    if keys == [] then [] else (if keys[0] == k then [] else [keys[0]]) + Without(keys[1..], k)
  }

  /** Each key once, the most recently used last. */
  function ByRecency<K(==)>(uses: seq<K>): seq<K> {
    if uses == [] then [] else Without(ByRecency(uses[..|uses| - 1]), uses[|uses| - 1]) + [uses[|uses| - 1]]
  }

  function LastOf<K>(keys: seq<K>, n: nat): seq<K> {
    if |keys| <= n then keys else keys[|keys| - n..]
  }

  ghost predicate Distinct<K>(keys: seq<K>) {
    forall i, j :: 0 <= i < j < |keys| ==> keys[i] != keys[j]
  }

  /** `k` was used at `at` and not since. */
  ghost predicate LastUsedAt<K>(uses: seq<K>, k: K, at: int) {
    0 <= at < |uses| && uses[at] == k && forall i :: at < i < |uses| ==> uses[i] != k
  }

  lemma {:induction false} WithoutMeaning<K>(keys: seq<K>, k: K)
    requires Distinct(keys)
    ensures var r := Without(keys, k);
            && Distinct(r) && k !in r && (forall x :: x in r <==> x in keys && x != k)
            && |r| == |keys| - if k in keys then 1 else 0
  {
    if keys != [] {
      assert Distinct(keys[1..]);
      WithoutMeaning(keys[1..], k);
      assert keys == [keys[0]] + keys[1..];
      assert keys[0] !in keys[1..];
    }
  }

  lemma {:induction false} WithoutSplit<K>(a: seq<K>, b: seq<K>, k: K)
    ensures Without(a + b, k) == Without(a, k) + Without(b, k)
  {
    if a == [] {
      assert a + b == b;
    } else {
      WithoutSplit(a[1..], b, k);
      Sequences.TailOfConcat(a, b);
      Sequences.Assoc(if a[0] == k then [] else [a[0]], Without(a[1..], k), Without(b, k));
    }
  }

  lemma {:induction false} WithoutAbsent<K>(keys: seq<K>, k: K)
    requires k !in keys
    ensures Without(keys, k) == keys
  {
    if keys != [] {
      WithoutAbsent(keys[1..], k);
    }
  }

  lemma {:induction false} ByRecencyDistinct<K>(uses: seq<K>)
    ensures Distinct(ByRecency(uses))
    ensures forall k :: k in ByRecency(uses) <==> k in uses
    decreases |uses|
  {
    if uses != [] {
      var before, last := uses[..|uses| - 1], uses[|uses| - 1];
      ByRecencyDistinct(before);
      WithoutMeaning(ByRecency(before), last);
      assert uses == before + [last];
    }
  }

  /** `ByRecency` lists the keys in the order of their last use. */
  lemma {:induction false} ByRecencyIsOrdered<K>(uses: seq<K>, i: nat, j: nat, a: int, b: int)
    requires i < j < |ByRecency(uses)|
    requires LastUsedAt(uses, ByRecency(uses)[i], a) && LastUsedAt(uses, ByRecency(uses)[j], b)
    ensures a < b
    decreases |uses|
  {
    var before, last := uses[..|uses| - 1], uses[|uses| - 1];
    var past, now := ByRecency(before), ByRecency(uses);
    ByRecencyDistinct(before);
    WithoutMeaning(past, last);
    var rest := Without(past, last);
    assert now == rest + [last];
    assert now[i] == rest[i] && rest[i] != last;
    if j < |rest| {
      assert now[j] == rest[j] && rest[j] != last;
      var i', j' := WithoutKeepsOrder(past, last, i, j);
      assert LastUsedAt(before, past[i'], a) && LastUsedAt(before, past[j'], b);
      ByRecencyIsOrdered(before, i', j', a, b);
    }
  }

  lemma WithoutFirst<K>(keys: seq<K>, k: K)
    requires keys != []
    ensures keys[0] == k ==> Without(keys, k) == Without(keys[1..], k)
    ensures keys[0] != k ==> |Without(keys, k)| == 1 + |Without(keys[1..], k)| && Without(keys, k)[0] == keys[0]
    ensures keys[0] != k ==> forall i :: 0 < i < |Without(keys, k)| ==> Without(keys, k)[i] == Without(keys[1..], k)[i - 1]
  {
  }

  lemma {:induction false} WithoutKeepsOrder<K>(keys: seq<K>, k: K, i: nat, j: nat) returns (i': nat, j': nat)
    requires i < j < |Without(keys, k)|
    ensures i' < j' < |keys| && keys[i'] == Without(keys, k)[i] && keys[j'] == Without(keys, k)[j]
  {
    assert keys != [];
    WithoutFirst(keys, k);
    hide Without;
    if keys[0] == k {
      var x, y := WithoutKeepsOrder(keys[1..], k, i, j);
      return x + 1, y + 1;
    } else if i == 0 {
      var y := WithoutKeeps(keys[1..], k, j - 1);
      return 0, y + 1;
    } else {
      var x, y := WithoutKeepsOrder(keys[1..], k, i - 1, j - 1);
      return x + 1, y + 1;
    }
  }

  lemma {:induction false} WithoutKeeps<K>(keys: seq<K>, k: K, i: nat) returns (i': nat)
    requires i < |Without(keys, k)|
    ensures i' < |keys| && keys[i'] == Without(keys, k)[i]
  {
    if keys[0] == k {
      assert Without(keys, k) == Without(keys[1..], k);
      var x := WithoutKeeps(keys[1..], k, i);
      return x + 1;
    } else if i == 0 {
      return 0;
    } else {
      var x := WithoutKeeps(keys[1..], k, i - 1);
      return x + 1;
    }
  }

  lemma LastOfSuffix<K>(a: seq<K>, b: seq<K>, n: nat)
    requires |b| >= n || a == []
    ensures LastOf(a + b, n) == LastOf(b, n)
  {
    if a == [] {
      assert a + b == b;
    } else {
      assert (a + b)[|a + b| - n..] == b[|b| - n..];
    }
  }

  lemma WithoutOfSplit<K>(all: seq<K>, dropped: seq<K>, kept: seq<K>, k: K)
    requires all == dropped + kept
    ensures Without(all, k) + [k] == Without(dropped, k) + (Without(kept, k) + [k])
  {
    WithoutSplit(dropped, kept, k);
  }

  /** Using `k` in the bounded cache and then dropping the oldest key gives what the unbounded
      one would have kept. */
  lemma LeastRecentGoes<K>(all: seq<K>, k: K, n: nat)
    requires Distinct(all)
    ensures LastOf(Without(LastOf(all, n), k) + [k], n) == LastOf(Without(all, k) + [k], n)
  {
    var kept := LastOf(all, n);
    var dropped := all[..|all| - |kept|];
    var now := Without(kept, k) + [k];
    assert |now| >= |kept| by {
      WithoutMeaning(kept, k);
    }
    WithoutOfSplit(all, dropped, kept, k);
    LastOfSuffix(Without(dropped, k), now, n);
  }

  /** One more use, seen by the cache. */
  lemma UseOf<K>(uses: seq<K>, k: K, n: nat)
    ensures LastOf(ByRecency(uses + [k]), n) == LastOf(Without(LastOf(ByRecency(uses), n), k) + [k], n)
    ensures Distinct(LastOf(ByRecency(uses), n))
    ensures |Without(LastOf(ByRecency(uses), n), k) + [k]| <= n + 1
    ensures k in LastOf(ByRecency(uses), n) ==> |Without(LastOf(ByRecency(uses), n), k) + [k]| <= n
  {
    assert (uses + [k])[..|uses|] == uses;
    ByRecencyDistinct(uses);
    LeastRecentGoes(ByRecency(uses), k, n);
    WithoutMeaning(LastOf(ByRecency(uses), n), k);
  }

  /** The latest lookup of a key. */
  function LatestOf<K(==), V>(lookups: seq<Lookup<K, V>>, k: K): Option<Lookup<K, V>> {
    if lookups == [] then None
    else if lookups[|lookups| - 1].key == k then Some(lookups[|lookups| - 1])
    else LatestOf(lookups[..|lookups| - 1], k)
  }

  /** The latest lookup of the key may still be reused: a location for `ttl`, a miss for five minutes at
      most. */
  predicate Reusable<K(==), V>(lookups: seq<Lookup<K, V>>, k: K, ttl: Time, now: Time) {
    match LatestOf(lookups, k)
    case None => false
    case Some(l) => now < l.at + ttl && (l.value.None? ==> now < l.at + 300000)
  }

  /** The entry is what the latest lookup of its key said, and expires with it. */
  predicate Backed<K(==), V(==)>(e: Entry<K, V>, lookups: seq<Lookup<K, V>>, ttl: Time) {
    match LatestOf(lookups, e.key)
    case None => false
    case Some(l) => l.value == e.value && e.expires == l.at + Life(l.value, ttl)
  }

  ghost predicate AllBacked<K, V>(entries: seq<Entry<K, V>>, lookups: seq<Lookup<K, V>>, ttl: Time) {
    forall e :: e in entries ==> Backed(e, lookups, ttl)
  }

  lemma LatestSnoc<K, V>(lookups: seq<Lookup<K, V>>, l: Lookup<K, V>, k: K)
    ensures LatestOf(lookups + [l], k) == if l.key == k then Some(l) else LatestOf(lookups, k)
  {
    assert (lookups + [l])[..|lookups|] == lookups;
  }

  lemma BackedStays<K, V>(entries: seq<Entry<K, V>>, fewer: seq<Entry<K, V>>, lookups: seq<Lookup<K, V>>, l: Lookup<K, V>, ttl: Time)
    requires AllBacked(entries, lookups, ttl) && forall e :: e in fewer ==> e in entries && e.key != l.key
    ensures AllBacked(fewer + [Entry(l.key, l.value, l.at + Life(l.value, ttl))], lookups + [l], ttl)
  {
    hide LatestOf;
    LatestSnoc(lookups, l, l.key);
    forall e | e in fewer
      ensures Backed(e, lookups + [l], ttl)
    {
      assert Backed(e, lookups, ttl);
      LatestSnoc(lookups, l, e.key);
    }
  }

  /** A backed entry is good as long as its lookup may be reused. */
  lemma BackedIsReusable<K, V>(e: Entry<K, V>, lookups: seq<Lookup<K, V>>, ttl: Time, now: Time)
    requires Backed(e, lookups, ttl)
    ensures Reusable(lookups, e.key, ttl, now) <==> now < e.expires
    ensures LatestOf(lookups, e.key).Some? && LatestOf(lookups, e.key).value.value == e.value
  {
    hide LatestOf;
  }

  lemma NoneLeft<K, V>(entries: seq<Entry<K, V>>, k: K)
    requires k !in Keys(entries)
    ensures forall e :: e in entries ==> e.key != k
  {
    forall e | e in entries
      ensures e.key != k
    {
      KeyOfEntry(entries, e);
    }
  }

  lemma KeyOfEntry<K, V>(entries: seq<Entry<K, V>>, e: Entry<K, V>)
    requires e in entries
    ensures e.key in Keys(entries)
  {
    var i :| 0 <= i < |entries| && entries[i] == e;
    assert Keys(entries)[i] == e.key;
  }

  lemma FewerBacked<K, V>(entries: seq<Entry<K, V>>, fewer: seq<Entry<K, V>>, lookups: seq<Lookup<K, V>>, ttl: Time)
    requires AllBacked(entries, lookups, ttl) && forall e :: e in fewer ==> e in entries
    ensures AllBacked(fewer, lookups, ttl)
  {
  }

  class LocationResolver<V> {
    const maxEntries: nat
    const ttl: Time
    var cache: seq<Entry<string, V>>
    ghost var uses: seq<string> // the public addresses asked for so far
    ghost var lookups: seq<Lookup<string, V>> // the calls of the location database so far

    /** The cache holds the most recently used addresses, oldest first, and nothing it was not told. */
    ghost predicate Valid()
      reads this
    {
      && Keys(cache) == LastOf(ByRecency(uses), maxEntries)
      && AllBacked(cache, lookups, ttl)
    }

    constructor (maxEntries: nat, ttl: Time)
      ensures Valid() && uses == [] && lookups == []
      ensures this.maxEntries == maxEntries && this.ttl == ttl
    {
      this.maxEntries, this.ttl, cache, uses, lookups := maxEntries, ttl, [], [], [];
    }

    /** `cache.get`. */
    method Get(k: string) returns (found: Option<Entry<string, V>>)
      ensures found.None? <==> k !in Keys(cache)
      ensures found.Some? ==> found.value in cache && found.value.key == k
    {
      for i := 0 to |cache|
        invariant k !in Keys(cache)[..i]
      {
        if cache[i].key == k {
          assert Keys(cache)[i] == k;
          return Some(cache[i]);
        }
      }
      return None;
    }

    /** `cache.delete`. */
    method Delete(k: string)
      modifies this`cache
      ensures Keys(cache) == Without(Keys(old(cache)), k)
      ensures forall e :: e in cache ==> e in old(cache)
    {
      var kept, entries := [], cache;
      for i := 0 to |entries|
        invariant Keys(kept) == Without(Keys(entries[..i]), k)
        invariant forall e :: e in kept ==> e in entries
      {
        assert Keys(entries[..i + 1]) == Keys(entries[..i]) + [entries[i].key];
        WithoutSplit(Keys(entries[..i]), [entries[i].key], k);
        if entries[i].key != k {
          assert Keys(kept + [entries[i]]) == Keys(kept) + [entries[i].key];
          kept := kept + [entries[i]];
        }
      }
      assert entries[..|entries|] == entries;
      cache := kept;
    }

    /** `cache.set` of a key that is not in the map. */
    method Append(e: Entry<string, V>)
      modifies this`cache
      ensures Keys(cache) == Keys(old(cache)) + [e.key] && cache == old(cache) + [e]
    {
      assert Keys(cache + [e]) == Keys(cache) + [e.key];
      cache := cache + [e];
    }

    /** `cache.delete(cache.keys().next().value)`. */
    method DropOldest()
      requires cache != []
      modifies this`cache
      ensures Keys(cache) == Keys(old(cache))[1..] && cache == old(cache)[1..]
    {
      assert Keys(cache[1..]) == Keys(cache)[1..];
      cache := cache[1..];
    }

    /** Line 35: an answer that is still good moves to the end. */
    method Reuse(e: Entry<string, V>)
      requires Valid() && e in cache
      modifies this
      ensures Valid() && uses == old(uses) + [e.key] && lookups == old(lookups)
    {
      hide ByRecency, Distinct, Without, AllBacked;
      UseOf(uses, e.key, maxEntries);
      KeyOfEntry(cache, e);
      ghost var before := cache;
      Delete(e.key);
      Append(e);
      FewerBacked(before, cache, lookups, ttl);
      uses := uses + [e.key];
    }

    /** Lines 36-44: a new answer goes to the end, and the oldest one may have to go. */
    method Remember(k: string, found: Option<V>, at: Time)
      requires Valid()
      modifies this
      ensures Valid() && uses == old(uses) + [k] && lookups == old(lookups) + [Lookup(k, found, at)]
    {
      hide ByRecency, Distinct, Without, AllBacked;
      UseOf(uses, k, maxEntries);
      ghost var before := cache;
      WithoutMeaning(Keys(cache), k);
      Delete(k);
      NoneLeft(cache, k);
      BackedStays(before, cache, lookups, Lookup(k, found, at), ttl);
      Append(Entry(k, found, at + Life(found, ttl)));
      uses := uses + [k];
      lookups := lookups + [Lookup(k, found, at)];
      before := cache;
      if |cache| > maxEntries {
        DropOldest();
        FewerBacked(before, cache, lookups, ttl);
      }
    }

    /** Lines 31-45. An address that is not public has no location and is not remembered. The clock is
        read twice, at `first` and, after a lookup that said `found`, at `second`. The database is asked
        exactly when the address is not among the last `maxEntries` or its latest lookup may no longer be
        reused; otherwise that lookup is the answer. */
    method Resolve(value: Option<string>, isIP: string -> nat, first: Time, found: Option<V>, second: Time) returns (answer: Option<V>)
      requires Valid()
      modifies this
      ensures Valid()
      ensures var key := PublicAddress(value, isIP);
              key.None? ==> answer.None? && uses == old(uses) && lookups == old(lookups) && cache == old(cache)
      ensures var key := PublicAddress(value, isIP);
              key.Some? ==>
                && uses == old(uses) + [key.value]
                && if key.value in LastOf(ByRecency(old(uses)), maxEntries) && Reusable(old(lookups), key.value, ttl, first)
                   then lookups == old(lookups) && answer == LatestOf(old(lookups), key.value).value.value
                   else lookups == old(lookups) + [Lookup(key.value, found, second)] && answer == found
    {
      hide ByRecency, Distinct, Without, LastOf, LatestOf, Backed, Reusable;
      var ip := if value.Some? then IpAddress.Normalize(value.value, isIP) else None;
      if !IpAddress.IsPublic(ip, isIP) {
        return None;
      }
      var k := ip.value;
      var cached := Get(k);
      if cached.Some? {
        BackedIsReusable(cached.value, lookups, ttl, first);
      }
      if cached.Some? && cached.value.expires > first {
        Reuse(cached.value);
        return cached.value.value;
      }
      Remember(k, found, second);
      return found;
    }
  }
}
