/**
 The query tracker: per-statement statistics in sixteen bounded shards, evicting the stale half
 of a shard when it is full.
 */
module QueryTracker {

  const NumShards: nat := 16

  type ShardIndex = i: nat | i < 16

  type Query = seq<bv8>

  /** `lastSeen` is a time; `maxTime` and `totalTime` are durations. */
  datatype Stat = Stat(count: nat, totalTime: int, maxTime: int, lastSeen: int, errors: nat)

  type Shard = map<Query, Stat>

  // ---------------------------------------------------------------- counting

  /** How many of these times are not after `c`. */
  function CountUpTo(times: seq<int>, c: int): nat {
    if times == [] then 0 else (if times[0] <= c then 1 else 0) + CountUpTo(times[1..], c)
  }

  predicate Sorted(s: seq<int>) { forall i, j :: 0 <= i < j < |s| ==> s[i] <= s[j] }

  predicate AtLeast(s: seq<int>, low: int) { forall i :: 0 <= i < |s| ==> low <= s[i] }

  function Insert(x: int, s: seq<int>): seq<int> {
    if s == [] || x <= s[0] then [x] + s else [s[0]] + Insert(x, s[1..])
  }

  function SortTimes(s: seq<int>): seq<int> { if s == [] then [] else Insert(s[0], SortTimes(s[1..])) }

  lemma {:induction false} InsertSorted(x: int, s: seq<int>, low: int)
    requires Sorted(s) && AtLeast(s, low) && low <= x
    ensures Sorted(Insert(x, s)) && AtLeast(Insert(x, s), low) && |Insert(x, s)| == |s| + 1
    decreases |s|
  {
    if s != [] && s[0] < x { InsertSorted(x, s[1..], s[0]); }
  }

  lemma {:induction false} InsertCount(x: int, s: seq<int>, c: int)
    ensures CountUpTo(Insert(x, s), c) == (if x <= c then 1 else 0) + CountUpTo(s, c)
    decreases |s|
  {
    if s == [] || x <= s[0] {
      assert ([x] + s)[1..] == s;
    } else {
      InsertCount(x, s[1..], c);
      assert ([s[0]] + Insert(x, s[1..]))[1..] == Insert(x, s[1..]);
    }
  }

  function Min(x: int, y: int): int { if x <= y then x else y }

  lemma {:induction false} SortTimesSorted(s: seq<int>)
    ensures Sorted(SortTimes(s)) && |SortTimes(s)| == |s|
    decreases |s|
  {
    if s != [] {
      SortTimesSorted(s[1..]);
      var rest := SortTimes(s[1..]);
      InsertSorted(s[0], rest, if rest == [] then s[0] else Min(s[0], rest[0]));
    }
  }

  lemma {:induction false} SortTimesCount(s: seq<int>, c: int)
    ensures CountUpTo(SortTimes(s), c) == CountUpTo(s, c)
    decreases |s|
  {
    if s != [] {
      SortTimesCount(s[1..], c);
      InsertCount(s[0], SortTimes(s[1..]), c);
    }
  }

  /** At least the first `m + 1` of a sorted sequence are not after its `m`-th. */
  lemma {:induction false} CountSorted(s: seq<int>, m: nat, c: int)
    requires Sorted(s) && m < |s| && s[m] <= c
    ensures CountUpTo(s, c) >= m + 1
    decreases m
  {
    if m > 0 {
      assert s[0] <= s[m];
      CountSorted(s[1..], m - 1, c);
    }
  }

  /** `order` lists every key of the shard once: the order a range over the map happens to take. */
  ghost predicate Enumerates(order: seq<Query>, keys: set<Query>) {
    && (forall i, j :: 0 <= i < j < |order| ==> order[i] != order[j])
    && (forall k :: k in keys <==> k in order)
  }

  function Times(order: seq<Query>, stats: Shard): (r: seq<int>)
    requires forall k :: k in order ==> k in stats
    ensures |r| == |order|
  {
    if order == [] then [] else [stats[order[0]].lastSeen] + Times(order[1..], stats)
  }

  /** The entries not seen after `c`. */
  function Stale(stats: Shard, c: int): set<Query> { set k | k in stats && stats[k].lastSeen <= c }

  /** The entries seen after `c`. */
  function Newer(stats: Shard, c: int): Shard { map k | k in stats && stats[k].lastSeen > c :: stats[k] }

  lemma {:induction false} CountIsSize(order: seq<Query>, stats: Shard, c: int, stale: set<Query>)
    requires forall k :: k in order ==> k in stats
    requires forall i, j :: 0 <= i < j < |order| ==> order[i] != order[j]
    requires stale == set k | k in order && stats[k].lastSeen <= c
    ensures |stale| == CountUpTo(Times(order, stats), c)
    decreases |order|
  {
    if order != [] {
      var first, rest := order[0], order[1..];
      var fewer := set k | k in rest && stats[k].lastSeen <= c;
      CountIsSize(rest, stats, c, fewer);
      assert first !in rest;
      assert Times(order, stats)[1..] == Times(rest, stats);
      assert stale == fewer + if stats[first].lastSeen <= c then {first} else {};
    }
  }

  lemma NewerAndStale(stats: Shard, c: int)
    ensures |Newer(stats, c)| + |Stale(stats, c)| == |stats|
  {
    var newer := Newer(stats, c).Keys;
    assert newer + Stale(stats, c) == stats.Keys;
    assert newer !! Stale(stats, c);
    assert |stats.Keys| == |stats| && |newer| == |Newer(stats, c)|;
  }

  /** What the median does: more than half of a shard is not seen after it. */
  lemma MedianEvictsHalf(order: seq<Query>, stats: Shard)
    requires Enumerates(order, stats.Keys) && stats != map[]
    ensures |order| == |stats| > 0 && |SortTimes(Times(order, stats))| == |order|
    ensures var c := SortTimes(Times(order, stats))[|order| / 2];
      |Newer(stats, c)| + |stats| / 2 + 1 <= |stats|
  {
    EnumeratesSize(order, stats.Keys);
    assert |stats.Keys| == |stats|;
    assert |stats| > 0 by {
      var k :| k in stats;
      assert stats.Keys != {};
    }
    var seen := SortTimes(Times(order, stats));
    SortTimesSorted(Times(order, stats));
    var c := seen[|order| / 2];
    SortTimesCount(Times(order, stats), c);
    CountSorted(seen, |order| / 2, c);
    CountIsSize(order, stats, c, Stale(stats, c));
    NewerAndStale(stats, c);
  }

  lemma {:induction false} EnumeratesSize(order: seq<Query>, keys: set<Query>)
    requires Enumerates(order, keys)
    ensures |order| == |keys|
    decreases |order|
  {
    if order == [] {
      assert keys == {};
    } else {
      var fewer := keys - {order[0]};
      assert forall k :: k in fewer <==> k in order[1..];
      EnumeratesSize(order[1..], fewer);
    }
  }

  /** The keys of a shard, in whatever order a range over the map takes. */
  method KeysOf(stats: Shard) returns (order: seq<Query>)
    ensures Enumerates(order, stats.Keys)
  {
    order := [];
    var left := stats.Keys;
    while left != {}
      invariant left <= stats.Keys && Enumerates(order, stats.Keys - left)
      decreases left
    {
      var k :| k in left;
      order := order + [k];
      left := left - {k};
    }
  }

  /**
   evictStale.  More than half of the entries go; those kept are exactly the ones seen after some
   instant, so each is strictly newer than every one removed; and a shard that was not empty
   never needs the fall-back that clears it.
   */
  method EvictStale(stats: Shard) returns (kept: Shard, ghost cutoff: int, ghost cleared: bool)
    ensures stats == map[] ==> kept == map[]
    ensures stats != map[] ==> kept == Newer(stats, cutoff) && |kept| + |stats| / 2 + 1 <= |stats|
    ensures !cleared
  {
    kept, cutoff, cleared := stats, 0, false;
    if |stats| == 0 {
      return;
    }
    var order := KeysOf(stats);
    MedianEvictsHalf(order, stats);
    var seen := SortTimes(Times(order, stats));
    var cut := seen[|seen| / 2];
    cutoff := cut;
    kept := RemoveStale(order, stats, cut);
    if |kept| >= |seen| {
      kept, cleared := map[], true;
    }
  }

  /** The loop of evictStale: deletes what was not seen after `cut`. */
  method RemoveStale(order: seq<Query>, stats: Shard, cut: int) returns (kept: Shard)
    requires Enumerates(order, stats.Keys)
    ensures kept == Newer(stats, cut)
  {
    kept := stats;
    for i := 0 to |order|
      invariant kept == map k | k in stats && !(k in order[..i] && stats[k].lastSeen <= cut) :: stats[k]
    {
      assert order[..i + 1] == order[..i] + [order[i]];
      if stats[order[i]].lastSeen <= cut {
        kept := kept - {order[i]};
      }
    }
    assert order[..|order|] == order;
  }

  // ---------------------------------------------------------------- totals

  function Part(s: Stat, errors: bool): nat { if errors then s.errors else s.count }

  /** The counts, or the error counts, of these entries together. */
  ghost function Sum(keys: set<Query>, stats: Shard, errors: bool): nat
    requires keys <= stats.Keys
  {
    if keys == {} then 0
    else
      var k :| k in keys;
      Part(stats[k], errors) + Sum(keys - {k}, stats, errors)
  }

  lemma {:induction false} SumSplit(keys: set<Query>, stats: Shard, errors: bool, k: Query)
    requires keys <= stats.Keys && k in keys
    ensures Sum(keys, stats, errors) == Part(stats[k], errors) + Sum(keys - {k}, stats, errors)
    decreases keys
  {
    var j :| j in keys && Sum(keys, stats, errors) == Part(stats[j], errors) + Sum(keys - {j}, stats, errors);
    if j != k {
      SumSplit(keys - {j}, stats, errors, k);
      SumSplit(keys - {k}, stats, errors, j);
      assert keys - {j} - {k} == keys - {k} - {j};
    }
  }

  /** Only the entries summed matter. */
  lemma {:induction false} SumSame(keys: set<Query>, a: Shard, b: Shard, errors: bool)
    requires keys <= a.Keys && keys <= b.Keys && forall k :: k in keys ==> a[k] == b[k]
    ensures Sum(keys, a, errors) == Sum(keys, b, errors)
    decreases keys
  {
    if keys != {} {
      var k :| k in keys;
      SumSplit(keys, a, errors, k);
      SumSplit(keys, b, errors, k);
      SumSame(keys - {k}, a, b, errors);
    }
  }

  lemma {:induction false} SumFewer(few: set<Query>, keys: set<Query>, stats: Shard, errors: bool)
    requires few <= keys <= stats.Keys
    ensures Sum(few, stats, errors) <= Sum(keys, stats, errors)
    decreases keys
  {
    if few != keys {
      var k :| k in keys && k !in few;
      SumSplit(keys, stats, errors, k);
      SumFewer(few, keys - {k}, stats, errors);
    }
  }

  ghost function ShardTotal(stats: Shard, errors: bool): nat { Sum(stats.Keys, stats, errors) }

  lemma NewerTotal(stats: Shard, c: int, errors: bool)
    ensures ShardTotal(Newer(stats, c), errors) <= ShardTotal(stats, errors)
  {
    var newer := Newer(stats, c);
    SumSame(newer.Keys, newer, stats, errors);
    SumFewer(newer.Keys, stats.Keys, stats, errors);
  }

  /** Replacing or adding one entry changes the total by that entry. */
  lemma PutTotal(stats: Shard, k: Query, s: Stat, errors: bool)
    ensures ShardTotal(stats[k := s], errors)
         == ShardTotal(stats, errors) + Part(s, errors) - (if k in stats then Part(stats[k], errors) else 0)
  {
    var put := stats[k := s];
    SumSplit(put.Keys, put, errors, k);
    assert put.Keys - {k} == stats.Keys - {k};
    SumSame(stats.Keys - {k}, put, stats, errors);
    if k in stats {
      SumSplit(stats.Keys, stats, errors, k);
    } else {
      assert stats.Keys - {k} == stats.Keys;
    }
  }

  ghost function AllTotal(shards: seq<Shard>, errors: bool): nat {
    if shards == [] then 0 else ShardTotal(shards[0], errors) + AllTotal(shards[1..], errors)
  }

  lemma {:induction false} PutShard(shards: seq<Shard>, i: nat, stats: Shard, errors: bool)
    requires i < |shards|
    ensures AllTotal(shards[i := stats], errors)
         == AllTotal(shards, errors) - ShardTotal(shards[i], errors) + ShardTotal(stats, errors)
    decreases |shards|
  {
    var put := shards[i := stats];
    if i == 0 {
      assert put[1..] == shards[1..];
    } else {
      assert put[1..] == shards[1..][i - 1 := stats];
      PutShard(shards[1..], i - 1, stats, errors);
    }
  }

  // ---------------------------------------------------------------- the tracker

  function Hash(query: Query, h: bv32): bv32
    decreases |query|
  {
    if query == [] then h else Hash(query[1..], (h * 16777619) ^ (query[0] as bv32))
  }

  /** getShard */
  function ShardOf(query: Query): ShardIndex { (Hash(query, 2166136261) % 16) as int }

  /** Go's division truncates toward zero. */
  function PerShard(maxSize: int): int { if maxSize >= 0 then maxSize / NumShards else -((-maxSize) / NumShards) }

  /** No shard holds more than `most` entries, or more than one. */
  ghost predicate Bounded(shards: seq<Shard>, most: int) {
    forall i :: 0 <= i < |shards| ==> |shards[i]| <= 1 || |shards[i]| <= most
  }

  /** Every entry of the shard is for a statement that belongs to shard `i`, and none for the empty one. */
  ghost predicate BelongsHere(stats: Shard, i: nat, place: Query -> ShardIndex) {
    forall k :: k in stats ==> place(k) == i && k != []
  }

  ghost predicate InPlace(shards: seq<Shard>, place: Query -> ShardIndex) {
    forall i :: 0 <= i < |shards| ==> BelongsHere(shards[i], i, place)
  }

  ghost predicate Placed(shards: seq<Shard>, maxSize: int, place: Query -> ShardIndex) {
    |shards| == NumShards && Bounded(shards, PerShard(maxSize)) && InPlace(shards, place)
  }

  function Entries(shards: seq<Shard>): nat { if shards == [] then 0 else |shards[0]| + Entries(shards[1..]) }

  lemma {:induction false} EntriesBounded(shards: seq<Shard>, most: nat)
    requires forall i :: 0 <= i < |shards| ==> |shards[i]| <= most
    ensures Entries(shards) <= |shards| * most
    decreases |shards|
  {
    if shards != [] {
      EntriesBounded(shards[1..], most);
      assert |shards| * most == most + |shards[1..]| * most;
    }
  }

  /** All shards together stay within the size the tracker was given, or with less than one entry a shard, within one each. */
  lemma NeverOverfull(shards: seq<Shard>, maxSize: int, place: Query -> ShardIndex)
    requires Placed(shards, maxSize, place)
    ensures Entries(shards) <= if maxSize >= 16 then maxSize else 16
  {
    var most: nat := if PerShard(maxSize) >= 1 then PerShard(maxSize) else 1;
    EntriesBounded(shards, most);
  }

  /** A statistic after one more request. */
  function Bumped(s: Stat, duration: int, failed: bool, now: int): Stat {
    Stat(s.count + 1, s.totalTime + duration, if duration > s.maxTime then duration else s.maxTime, now,
         s.errors + if failed then 1 else 0)
  }

  /** One request for a statement. */
  datatype Request = Request(duration: int, failed: bool, now: int)

  /** The statistic of a statement after these requests. */
  function StatOf(requests: seq<Request>): Stat {
    if requests == [] then Stat(0, 0, 0, 0, 0)
    else
      var r := requests[|requests| - 1];
      Bumped(StatOf(requests[..|requests| - 1]), r.duration, r.failed, r.now)
  }

  function Durations(requests: seq<Request>): int {
    if requests == [] then 0 else requests[0].duration + Durations(requests[1..])
  }

  function Failures(requests: seq<Request>): nat {
    if requests == [] then 0 else (if requests[0].failed then 1 else 0) + Failures(requests[1..])
  }

  lemma {:induction false} SumsSnoc(requests: seq<Request>, r: Request)
    ensures Durations(requests + [r]) == Durations(requests) + r.duration
    ensures Failures(requests + [r]) == Failures(requests) + if r.failed then 1 else 0
    decreases |requests|
  {
    if requests == [] {
      assert requests + [r] == [r] && [r][1..] == [];
    } else {
      assert (requests + [r])[1..] == requests[1..] + [r];
      SumsSnoc(requests[1..], r);
    }
  }

  /**
   What an entry says of the requests it has counted: how many there were and how many failed,
   their times together, the longest of them or zero, and when the last one was.
   */
  lemma {:induction false} StatMeans(requests: seq<Request>)
    ensures var s := StatOf(requests);
      && s.count == |requests| && s.errors == Failures(requests) && s.totalTime == Durations(requests)
      && s.maxTime >= 0 && (forall i :: 0 <= i < |requests| ==> requests[i].duration <= s.maxTime)
      && (s.maxTime == 0 || exists i :: 0 <= i < |requests| && requests[i].duration == s.maxTime)
      && (requests != [] ==> s.lastSeen == requests[|requests| - 1].now)
    decreases |requests|
  {
    if requests != [] {
      var init, r := requests[..|requests| - 1], requests[|requests| - 1];
      StatMeans(init);
      assert requests == init + [r];
      SumsSnoc(init, r);
      var was := StatOf(init).maxTime;
      if r.duration <= was && was != 0 {
        var i :| 0 <= i < |init| && init[i].duration == was;
        assert requests[i].duration == was;
      }
    }
  }

  /** One more request for `query`: its entry is updated, and of the others some may be gone and none is changed. */
  ghost predicate Noted(before: seq<Shard>, after: seq<Shard>, query: Query, place: Query -> ShardIndex,
                        duration: int, failed: bool, now: int)
    requires |before| == |after| == NumShards
  {
    var i := place(query);
    var s := if query in before[i] then before[i][query] else Stat(0, 0, 0, 0, 0);
    && query in after[i]
    && after[i][query] == Bumped(s, duration, failed, now)
    && (forall j :: 0 <= j < NumShards && j != i ==> after[j] == before[j])
    && (forall k :: k in after[i] && k != query ==> k in before[i] && after[i][k] == before[i][k])
  }

  /** What one entry adds to the whole. */
  lemma PutEntry(shards: seq<Shard>, i: nat, stats: Shard, query: Query, s: Stat, s': Stat, errors: bool)
    requires i < |shards| && ShardTotal(stats, errors) <= ShardTotal(shards[i], errors)
    requires if query in stats then stats[query] == s else s == Stat(0, 0, 0, 0, 0)
    ensures AllTotal(shards[i := stats[query := s']], errors) + Part(s, errors) <= AllTotal(shards, errors) + Part(s', errors)
  {
    PutTotal(stats, query, s', errors);
    PutShard(shards, i, stats[query := s'], errors);
  }

  lemma PutSize(stats: Shard, query: Query, s: Stat)
    ensures |stats[query := s]| == if query in stats then |stats| else |stats| + 1
  {
    var put := stats[query := s];
    assert put.Keys == stats.Keys + {query};
    assert |put| == |put.Keys| && |stats| == |stats.Keys|;
  }

  lemma PutBounded(shards: seq<Shard>, most: int, at: nat, put: Shard)
    requires Bounded(shards, most) && at < |shards| && (|put| <= 1 || |put| <= most)
    ensures Bounded(shards[at := put], most)
  {
    var after := shards[at := put];
    forall i | 0 <= i < |after| ensures |after[i]| <= 1 || |after[i]| <= most {
      if i == at { assert after[i] == put; } else { assert after[i] == shards[i]; }
    }
  }

  lemma PutInPlace(shards: seq<Shard>, place: Query -> ShardIndex, at: nat, put: Shard)
    requires InPlace(shards, place) && at < |shards| && BelongsHere(put, at, place)
    ensures InPlace(shards[at := put], place)
  {
    var after := shards[at := put];
    forall i | 0 <= i < |after| ensures BelongsHere(after[i], i, place) {
      if i == at { assert after[i] == put; } else { assert after[i] == shards[i]; }
    }
  }

  lemma PutPlaced(shards: seq<Shard>, maxSize: int, place: Query -> ShardIndex, query: Query, stats: Shard, s: Stat)
    requires Placed(shards, maxSize, place) && query != []
    requires forall k :: k in stats ==> k in shards[place(query)]
    requires if query in stats then |stats| <= |shards[place(query)]| else |stats| == 0 || |stats| < PerShard(maxSize)
    ensures Placed(shards[place(query) := stats[query := s]], maxSize, place)
  {
    var at, put := place(query), stats[query := s];
    PutSize(stats, query, s);
    PutBounded(shards, PerShard(maxSize), at, put);
    assert BelongsHere(shards[at], at, place);
    PutInPlace(shards, place, at, put);
  }

  lemma PutNoted(shards: seq<Shard>, query: Query, place: Query -> ShardIndex, stats: Shard, s: Stat,
                 duration: int, failed: bool, now: int)
    requires |shards| == NumShards
    requires forall k :: k in stats ==> k in shards[place(query)] && stats[k] == shards[place(query)][k]
    requires s == if query in shards[place(query)] then shards[place(query)][query] else Stat(0, 0, 0, 0, 0)
    ensures Noted(shards, shards[place(query) := stats[query := Bumped(s, duration, failed, now)]], query, place,
                  duration, failed, now)
  {
  }

  class Tracker {
    const maxSize: int
    /** Which shard a statement belongs to; nothing below depends on the hash. */
    const place: Query -> ShardIndex
    var shards: seq<Shard>
    var totalRequests: nat
    var totalErrors: nat

    /**
     Every statement is in its own shard, no shard is over its bound, and what the shards count
     together is no more than the requests and the errors there have been.
     */
    ghost predicate Valid()
      reads this
    {
      Placed(shards, maxSize, place) && AllTotal(shards, false) <= totalRequests && AllTotal(shards, true) <= totalErrors
    }

    constructor (maxSize: int)
      ensures Valid() && totalRequests == 0 && this.maxSize == maxSize
      ensures forall q :: place(q) == ShardOf(q)
    {
      this.maxSize, place := maxSize, ShardOf;
      shards := seq(NumShards, _ => map[]);
      totalRequests, totalErrors := 0, 0;
      new;
      EmptyTotal(shards, false);
      EmptyTotal(shards, true);
    }

    /** Looking a statement up, making room for it first if it is new and its shard is full. */
    method Entry(query: Query) returns (stats: Shard, s: Stat)
      requires Placed(shards, maxSize, place) && query != []
      ensures var was := shards[place(query)];
        && ShardTotal(stats, false) <= ShardTotal(was, false) && ShardTotal(stats, true) <= ShardTotal(was, true)
        && (forall k :: k in stats ==> k in was && stats[k] == was[k])
        && (query in was ==> stats == was && s == was[query])
        && (query !in was ==> s == Stat(0, 0, 0, 0, 0) && (|stats| == 0 || |stats| < PerShard(maxSize)))
    {
      stats := shards[place(query)];
      if query in stats {
        return stats, stats[query];
      }
      s := Stat(0, 0, 0, 0, 0);
      if |stats| >= PerShard(maxSize) {
        var kept;
        ghost var c, cleared;
        kept, c, cleared := EvictStale(stats);
        if stats != map[] {
          NewerTotal(stats, c, false);
          NewerTotal(stats, c, true);
        }
        stats := kept;
      }
    }

    method Note(query: Query, duration: int, failed: bool, now: int)
      requires Placed(shards, maxSize, place) && query != []
      modifies `shards
      ensures Placed(shards, maxSize, place) && Noted(old(shards), shards, query, place, duration, failed, now)
      ensures AllTotal(shards, false) <= AllTotal(old(shards), false) + 1
      ensures AllTotal(shards, true) <= AllTotal(old(shards), true) + if failed then 1 else 0
    {
      var i := place(query);
      var stats, s := Entry(query);
      var s' := Bumped(s, duration, failed, now);
      PutEntry(shards, i, stats, query, s, s', false);
      PutEntry(shards, i, stats, query, s, s', true);
      PutPlaced(shards, maxSize, place, query, stats, s');
      PutNoted(shards, query, place, stats, s, duration, failed, now);
      shards := shards[i := stats[query := s']];
    }

    method Record(query: Query, duration: int, failed: bool, now: int)
      requires Valid()
      modifies this
      ensures Valid() && totalRequests == old(totalRequests) + 1
      ensures totalErrors == old(totalErrors) + if failed then 1 else 0
      ensures if query == [] then shards == old(shards) else Noted(old(shards), shards, query, place, duration, failed, now)
    {
      totalRequests := totalRequests + 1;
      if failed {
        totalErrors := totalErrors + 1;
      }
      if query == [] {
        return;
      }
      Note(query, duration, failed, now);
    }
  }

  lemma {:induction false} EmptyTotal(shards: seq<Shard>, errors: bool)
    requires forall i :: 0 <= i < |shards| ==> shards[i] == map[]
    ensures AllTotal(shards, errors) == 0
    decreases |shards|
  {
    if shards != [] {
      EmptyTotal(shards[1..], errors);
    }
  }
}
