/**
 The in-memory rate limiter of valkey_util.py: an insertion-ordered store of recent times per key that is
 pruned, appended to and evicted in place, against the full history of accepted calls.
 */
module RateLimiter {
  import opened Sequences

  type Key = string

  /** _MAX_ENTRIES. */
  const CAP: nat := 10000

  /** The times later than `start`, in order. */
  function Pruned(times: seq<real>, start: real): (r: seq<real>)
    ensures |r| <= |times|
  {
    if times == [] then []
    else Pruned(times[..|times| - 1], start)
         + (if times[|times| - 1] > start then [times[|times| - 1]] else [])
  }

  predicate Sorted(times: seq<real>) {
    forall i, j :: 0 <= i < j < |times| ==> times[i] <= times[j]
  }

  predicate AllAtMost(times: seq<real>, bound: real) {
    forall i :: 0 <= i < |times| ==> times[i] <= bound
  }

  /** Calls that are `limit` or more apart in the list are at least a window apart in time. */
  predicate Spread(times: seq<real>, limit: int, window: real) {
    (limit <= 0 ==> times == [])
    && forall i, j :: 0 <= i < j < |times| && i + limit <= j ==> times[i] + window <= times[j]
  }

  /**
   The accepted calls of one key: in order, none after `clock`, and each at least a window after the
   call `limit` places before it.
   */
  predicate Orderly(times: seq<real>, limit: int, window: real, clock: real)
    decreases |times|
  {
    times == []
    || (times[|times| - 1] <= clock
        && limit > 0
        && (|times| > limit ==> times[|times| - 1 - limit] + window <= times[|times| - 1])
        && Orderly(times[..|times| - 1], limit, window, times[|times| - 1]))
  }

  lemma {:induction false} OrderlyMeans(times: seq<real>, limit: int, window: real, clock: real)
    requires Orderly(times, limit, window, clock)
    ensures Sorted(times) && AllAtMost(times, clock) && Spread(times, limit, window)
    decreases |times|
  {
    if times != [] {
      var n := |times| - 1;
      var rest := times[..n];
      OrderlyMeans(rest, limit, window, times[n]);
      assert forall i :: 0 <= i < n ==> times[i] == rest[i];
      forall i, j | 0 <= i < j < |times| && i + limit <= j
        ensures times[i] + window <= times[j]
      {
        if j == n {
          assert times[i] <= times[n - limit];
        } else {
          assert rest[i] + window <= rest[j];
        }
      }
    }
  }

  lemma {:induction false} LaterStaysOrderly(times: seq<real>, limit: int, window: real, clock: real, now: real)
    requires Orderly(times, limit, window, clock) && clock <= now
    ensures Orderly(times, limit, window, now)
  {
  }

  /** `kept` is what remains of `full`, which is in order, when nothing later than `start` is dropped. */
  predicate KeepsRecent(kept: seq<real>, full: seq<real>, start: real) {
    |kept| <= |full| && full[|full| - |kept|..] == kept
    && (|kept| < |full| ==> full[|full| - |kept| - 1] <= start)
  }

  lemma {:induction false} PrunedIsTail(times: seq<real>, start: real)
    requires Sorted(times)
    ensures KeepsRecent(Pruned(times, start), times, start)
  {
    if times != [] {
      var n := |times| - 1;
      if times[n] <= start {
        assert AllAtMost(times, start);
        AllPruned(times, start);
      } else {
        PrunedIsTail(times[..n], start);
        KeepsAlso(Pruned(times[..n], start), times[..n], start, times[n]);
        assert times == times[..n] + [times[n]];
      }
    }
  }

  lemma KeepsAlso(kept: seq<real>, full: seq<real>, start: real, now: real)
    requires KeepsRecent(kept, full, start)
    ensures KeepsRecent(kept + [now], full + [now], start)
  {
    var n := |full| - |kept|;
    assert (full + [now])[n..] == full[n..] + [now];
  }

  /** Times at most `start` at the front make no difference. */
  lemma {:induction false} PrunedSkips(older: seq<real>, times: seq<real>, start: real)
    requires AllAtMost(older, start)
    ensures Pruned(older + times, start) == Pruned(times, start)
  {
    if times == [] {
      assert older + times == older;
      AllPruned(older, start);
    } else {
      assert (older + times)[..|older + times| - 1] == older + times[..|times| - 1];
      PrunedSkips(older, times[..|times| - 1], start);
    }
  }

  lemma {:induction false} AllPruned(times: seq<real>, start: real)
    requires AllAtMost(times, start)
    ensures Pruned(times, start) == []
  {
    if times != [] { AllPruned(times[..|times| - 1], start); }
  }

  lemma RecentDecide(kept: seq<real>, full: seq<real>, before: real, start: real)
    requires KeepsRecent(kept, full, before) && before <= start && Sorted(full)
    ensures Pruned(kept, start) == Pruned(full, start)
  {
    assert full == full[..|full| - |kept|] + kept;
    PrunedSkips(full[..|full| - |kept|], kept, start);
  }

  /** How many accepted calls lie in (from, to]. */
  function CountIn(times: seq<real>, from: real, to: real): nat {
    if times == [] then 0
    else CountIn(times[..|times| - 1], from, to) + if from < times[|times| - 1] <= to then 1 else 0
  }

  /** Pruning a list that ends by `to` leaves exactly what lies in the window before `to`. */
  lemma {:induction false} PrunedCounts(times: seq<real>, from: real, to: real)
    requires AllAtMost(times, to)
    ensures |Pruned(times, from)| == CountIn(times, from, to)
  {
    if times != [] { PrunedCounts(times[..|times| - 1], from, to); }
  }

  lemma {:induction false} NoneIn(times: seq<real>, from: real, to: real)
    requires AllAtMost(times, from)
    ensures CountIn(times, from, to) == 0
  {
    if times != [] { NoneIn(times[..|times| - 1], from, to); }
  }

  /** It is the number of the places in the list whose times lie there. */
  lemma {:induction false} CountInIs(times: seq<real>, from: real, to: real)
    ensures CountIn(times, from, to) == |set i | 0 <= i < |times| && from < times[i] <= to|
  {
    if times != [] {
      var n := |times| - 1;
      CountInIs(times[..n], from, to);
      var before, all := set i | 0 <= i < n && from < times[..n][i] <= to, set i | 0 <= i < |times| && from < times[i] <= to;
      if from < times[n] <= to {
        assert all == before + {n};
      } else {
        assert all == before;
      }
    }
  }

  lemma {:induction false} CountInSplit(times: seq<real>, more: seq<real>, from: real, to: real)
    ensures CountIn(times + more, from, to) == CountIn(times, from, to) + CountIn(more, from, to)
  {
    if more == [] {
      assert times + more == times;
    } else {
      assert (times + more)[..|times + more| - 1] == times + more[..|more| - 1];
      CountInSplit(times, more[..|more| - 1], from, to);
    }
  }

  lemma {:induction false} CountInBounded(times: seq<real>, from: real, to: real)
    ensures CountIn(times, from, to) <= |times|
  {
    if times != [] { CountInBounded(times[..|times| - 1], from, to); }
  }

  /** All but the last `limit` calls lie before a window that takes in the last one. */
  lemma EarlyCalls(times: seq<real>, limit: int, window: real, from: real)
    requires Spread(times, limit, window) && 0 < limit < |times|
    requires times[|times| - 1] <= from + window
    ensures AllAtMost(times[..|times| - limit], from)
  {
    forall i | 0 <= i < |times| - limit
      ensures times[i] <= from
    {
      assert times[i] + window <= times[|times| - 1];
    }
  }

  lemma CountInLate(times: seq<real>, late: nat, from: real, to: real)
    requires late <= |times| && AllAtMost(times[..|times| - late], from)
    ensures CountIn(times, from, to) <= late
  {
    var n := |times| - late;
    NoneIn(times[..n], from, to);
    CountInBounded(times[n..], from, to);
    CountInSplit(times[..n], times[n..], from, to);
    assert times[..n] + times[n..] == times;
  }

  /** A window that takes in the last call has at most the last `limit` calls in it. */
  lemma LastWindow(times: seq<real>, limit: int, window: real, from: real)
    requires Sorted(times) && Spread(times, limit, window) && 0 < limit < |times|
    requires times[|times| - 1] <= from + window
    ensures CountIn(times, from, from + window) <= limit
  {
    EarlyCalls(times, limit, window, from);
    CountInLate(times, limit, from, from + window);
  }

  lemma FrontIsSpread(times: seq<real>, limit: int, window: real)
    requires Sorted(times) && Spread(times, limit, window) && times != []
    ensures Sorted(times[..|times| - 1]) && Spread(times[..|times| - 1], limit, window)
  {
  }

  lemma {:induction false} NoWindowOverLimit(times: seq<real>, limit: int, window: real, from: real)
    requires Sorted(times) && Spread(times, limit, window)
    ensures CountIn(times, from, from + window) <= if limit > 0 then limit else 0
  {
    if 0 < limit < |times| && times[|times| - 1] <= from + window {
      LastWindow(times, limit, window, from);
    } else if |times| <= limit {
      CountInBounded(times, from, from + window);
    } else if times != [] {
      FrontIsSpread(times, limit, window);
      NoWindowOverLimit(times[..|times| - 1], limit, window, from);
    }
  }

  /** No window of that length, wherever it lies, holds more than `limit` accepted calls of a key. */
  lemma WindowsObeyLimit(times: seq<real>, limit: int, window: real, clock: real, from: real)
    requires Orderly(times, limit, window, clock)
    ensures CountIn(times, from, from + window) <= if limit > 0 then limit else 0
  {
    OrderlyMeans(times, limit, window, clock);
    NoWindowOverLimit(times, limit, window, from);
  }

  // ----- The store -----

  /** Python's dict: the keys in insertion order, and the value of each. */
  datatype Dict = Dict(keys: seq<Key>, times: map<Key, seq<real>>)

  function At(m: map<Key, seq<real>>, k: Key): seq<real> {
    if k in m then m[k] else []
  }

  function Assign(d: Dict, key: Key, v: seq<real>): Dict {
    Dict(if key in d.times then d.keys else d.keys + [key], d.times[key := v])
  }

  function Delete(d: Dict, drop: set<Key>): Dict {
    Dict(Without(d.keys, drop), d.times - drop)
  }

  ghost predicate WellFormed(d: Dict) {
    Distinct(d.keys) && (forall k :: k in d.keys <==> k in d.times) && (forall k :: k in d.times ==> d.times[k] != [])
  }

  lemma DeleteWellFormed(d: Dict, drop: set<Key>)
    requires WellFormed(d)
    ensures WellFormed(Delete(d, drop))
  {
    WithoutDistinct(d.keys, drop);
    forall k
      ensures k in Without(d.keys, drop) <==> k in d.keys && k !in drop
    {
      WithoutMembers(d.keys, drop, k);
    }
  }

  lemma AssignWellFormed(d: Dict, key: Key, v: seq<real>)
    requires WellFormed(d) && v != []
    ensures WellFormed(Assign(d, key, v)) && |Assign(d, key, v).keys| <= |d.keys| + 1
  {
  }

  // ----- What the store remembers -----

  /** One key: its recorded times are the recent ones, and its accepted calls obey the limit. */
  predicate GoodKey(kept: seq<real>, full: seq<real>, limit: int, window: real, clock: real) {
    KeepsRecent(kept, full, clock - window) && Orderly(full, limit, window, clock)
  }

  ghost predicate Faithful(d: Dict, full: map<Key, seq<real>>, limit: int, window: real, clock: real) {
    forall k :: GoodKey(At(d.times, k), At(full, k), limit, window, clock)
  }

  /** Some recorded call of the key still lies in the window. */
  predicate Live(d: Dict, k: Key, start: real) {
    k in d.times && d.times[k] != [] && d.times[k][|d.times[k]| - 1] > start
  }

  /** When the last recorded time is old, every accepted call is. */
  lemma LastDecides(kept: seq<real>, full: seq<real>, start: real)
    requires KeepsRecent(kept, full, start) && kept != [] && kept[|kept| - 1] <= start
    ensures KeepsRecent([], full, start)
  {
    assert kept[|kept| - 1] == full[|full| - 1];
  }

  /** Fewer than `limit` calls in the window leave room for one more. */
  lemma OrderlyGrows(full: seq<real>, limit: int, window: real, now: real)
    requires Orderly(full, limit, window, now) && window > 0.0 && |Pruned(full, now - window)| < limit
    ensures Orderly(full + [now], limit, window, now)
  {
    OrderlyMeans(full, limit, window, now);
    PrunedIsTail(full, now - window);
    assert (full + [now])[..|full|] == full;
  }

  lemma KeyGrows(kept: seq<real>, full: seq<real>, limit: int, window: real, now: real)
    requires GoodKey(kept, full, limit, window, now) && window > 0.0 && |Pruned(full, now - window)| < limit
    ensures GoodKey(kept + [now], full + [now], limit, window, now)
  {
    OrderlyGrows(full, limit, window, now);
    KeepsAlso(kept, full, now - window, now);
  }

  lemma TimePasses(d: Dict, full: map<Key, seq<real>>, limit: int, window: real, clock: real, now: real)
    requires Faithful(d, full, limit, window, clock) && clock <= now
    ensures Faithful(d, full, limit, window, now)
  {
    forall k
      ensures GoodKey(At(d.times, k), At(full, k), limit, window, now)
    {
      assert GoodKey(At(d.times, k), At(full, k), limit, window, clock);
      LaterStaysOrderly(At(full, k), limit, window, clock, now);
    }
  }

  ghost predicate SameElsewhere(d: Dict, e: Dict, full: map<Key, seq<real>>, next: map<Key, seq<real>>, key: Key) {
    forall k :: k != key ==> At(e.times, k) == At(d.times, k) && At(next, k) == At(full, k)
  }

  /** Changing one key leaves the others as they are. */
  lemma OneKeyChanges(d: Dict, e: Dict, full: map<Key, seq<real>>, next: map<Key, seq<real>>, key: Key,
                      limit: int, window: real, clock: real)
    ensures Faithful(d, full, limit, window, clock) && SameElsewhere(d, e, full, next, key)
            && GoodKey(At(e.times, key), At(next, key), limit, window, clock)
            ==> Faithful(e, next, limit, window, clock)
  {
    if Faithful(d, full, limit, window, clock) && SameElsewhere(d, e, full, next, key)
       && GoodKey(At(e.times, key), At(next, key), limit, window, clock) {
      forall k
        ensures GoodKey(At(e.times, k), At(next, k), limit, window, clock)
      {
        assert GoodKey(At(d.times, k), At(full, k), limit, window, clock);
      }
    }
  }

  function Stale(d: Dict, start: real): set<Key> {
    set k | k in d.times && !Live(d, k, start)
  }

  lemma StaleMayGo(d: Dict, full: map<Key, seq<real>>, limit: int, window: real, clock: real)
    requires WellFormed(d) && Faithful(d, full, limit, window, clock)
    ensures Faithful(Delete(d, Stale(d, clock - window)), full, limit, window, clock)
  {
    var e := Delete(d, Stale(d, clock - window));
    forall k
      ensures GoodKey(At(e.times, k), At(full, k), limit, window, clock)
    {
      assert GoodKey(At(d.times, k), At(full, k), limit, window, clock);
      if k in Stale(d, clock - window) { LastDecides(d.times[k], At(full, k), clock - window); }
    }
  }

  lemma {:induction false} WithoutKeepsLast(keys: seq<Key>, drop: set<Key>)
    requires keys != [] && keys[|keys| - 1] !in drop
    ensures Without(keys, drop) != [] && Without(keys, drop)[|Without(keys, drop)| - 1] == keys[|keys| - 1]
  {
    if |keys| > 1 {
      WithoutKeepsLast(keys[1..], drop);
    }
  }

  /** Popping the first key takes exactly that key away. */
  lemma PopFirst(d: Dict)
    requires WellFormed(d) && d.keys != []
    ensures Delete(d, {d.keys[0]}).keys == d.keys[1..]
  {
    WithoutAbsent(d.keys[1..], {d.keys[0]});
  }

  // ----- What each change keeps -----

  ghost predicate Sound(d: Dict, full: map<Key, seq<real>>, limit: int, window: real, clock: real) {
    window > 0.0 && WellFormed(d) && Faithful(d, full, limit, window, clock)
  }

  /** Only keys with a call in the present window are stored. */
  ghost predicate AllLive(d: Dict, start: real) {
    forall k :: k in d.times ==> Live(d, k, start)
  }

  function Trimmed(d: Dict, key: Key, start: real): Dict {
    var recent := Pruned(At(d.times, key), start);
    if recent != [] then Assign(d, key, recent) else if key in d.times then Delete(d, {key}) else d
  }

  lemma TrimmedIsSmall(d: Dict, e: Dict, key: Key, start: real)
    requires WellFormed(d) && e == Trimmed(d, key, start)
    ensures WellFormed(e) && |e.keys| <= |d.keys|
    ensures At(e.times, key) == Pruned(At(d.times, key), start)
    ensures forall k :: k != key ==> At(e.times, k) == At(d.times, k)
  {
    DeleteWellFormed(d, {key});
    WithoutShortens(d.keys, {key});
  }

  lemma LaterStaysGood(full: seq<real>, limit: int, window: real, clock: real, now: real)
    requires Orderly(full, limit, window, clock) && clock <= now
    ensures GoodKey(Pruned(full, now - window), full, limit, window, now)
  {
    OrderlyMeans(full, limit, window, clock);
    PrunedIsTail(full, now - window);
    LaterStaysOrderly(full, limit, window, clock, now);
  }

  lemma KeyTrimmed(kept: seq<real>, full: seq<real>, limit: int, window: real, clock: real, now: real)
    requires GoodKey(kept, full, limit, window, clock) && clock <= now
    ensures Pruned(kept, now - window) == Pruned(full, now - window)
    ensures GoodKey(Pruned(full, now - window), full, limit, window, now)
  {
    OrderlyMeans(full, limit, window, clock);
    RecentDecide(kept, full, clock - window, now - window);
    LaterStaysGood(full, limit, window, clock, now);
  }

  lemma TrimmedSound(d: Dict, e: Dict, full: map<Key, seq<real>>, limit: int, window: real, clock: real,
                     key: Key, now: real)
    requires Sound(d, full, limit, window, clock) && clock <= now && WellFormed(e)
    requires At(e.times, key) == Pruned(At(d.times, key), now - window)
    requires forall k :: k != key ==> At(e.times, k) == At(d.times, k)
    ensures Sound(e, full, limit, window, now)
    ensures At(e.times, key) == Pruned(At(full, key), now - window)
  {
    assert GoodKey(At(d.times, key), At(full, key), limit, window, clock);
    KeyTrimmed(At(d.times, key), At(full, key), limit, window, clock, now);
    TimePasses(d, full, limit, window, clock, now);
    OneKeyChanges(d, e, full, full, key, limit, window, now);
  }

  lemma RecentCounts(d: Dict, full: map<Key, seq<real>>, limit: int, window: real, key: Key, now: real)
    requires Sound(d, full, limit, window, now)
    ensures |Pruned(At(full, key), now - window)| == CountIn(At(full, key), now - window, now)
  {
    assert GoodKey(At(d.times, key), At(full, key), limit, window, now);
    OrderlyMeans(At(full, key), limit, window, now);
    PrunedCounts(At(full, key), now - window, now);
  }

  function Appended(d: Dict, key: Key, now: real): Dict {
    Assign(d, key, At(d.times, key) + [now])
  }

  lemma AppendedSound(d: Dict, full: map<Key, seq<real>>, limit: int, window: real, key: Key, now: real)
    requires Sound(d, full, limit, window, now) && |Pruned(At(full, key), now - window)| < limit
    ensures Sound(Appended(d, key, now), full[key := At(full, key) + [now]], limit, window, now)
    ensures Live(Appended(d, key, now), key, now - window) && |Appended(d, key, now).keys| <= |d.keys| + 1
    ensures |Appended(d, key, now).keys| <= |d.keys|
            || Appended(d, key, now).keys[|Appended(d, key, now).keys| - 1] == key
  {
    assert GoodKey(At(d.times, key), At(full, key), limit, window, now);
    KeyGrows(At(d.times, key), At(full, key), limit, window, now);
    AssignWellFormed(d, key, At(d.times, key) + [now]);
    OneKeyChanges(d, Appended(d, key, now), full, full[key := At(full, key) + [now]], key, limit, window, now);
  }

  lemma StaleDropped(d: Dict, full: map<Key, seq<real>>, limit: int, window: real, clock: real, key: Key)
    requires Sound(d, full, limit, window, clock) && d.keys != [] && d.keys[|d.keys| - 1] == key
    requires Live(d, key, clock - window)
    ensures var e := Delete(d, Stale(d, clock - window));
            Sound(e, full, limit, window, clock) && AllLive(e, clock - window)
            && e.keys != [] && e.keys[|e.keys| - 1] == key
  {
    WithoutKeepsLast(d.keys, Stale(d, clock - window));
    DeleteWellFormed(d, Stale(d, clock - window));
    StaleMayGo(d, full, limit, window, clock);
  }

  lemma StayLive(d: Dict, drop: set<Key>, start: real)
    requires AllLive(d, start)
    ensures AllLive(Delete(d, drop), start)
  {
    forall k | k in Delete(d, drop).times
      ensures Live(Delete(d, drop), k, start)
    {
      assert Live(d, k, start);
    }
  }

  lemma FirstEvicted(d: Dict, full: map<Key, seq<real>>, limit: int, window: real, clock: real)
    requires Sound(d, full, limit, window, clock) && AllLive(d, clock - window) && d.keys != []
    ensures var e := Delete(d, {d.keys[0]});
            Sound(e, full - {d.keys[0]}, limit, window, clock) && AllLive(e, clock - window)
            && e.keys == d.keys[1..]
  {
    var first := d.keys[0];
    PopFirst(d);
    DeleteWellFormed(d, {first});
    StayLive(d, {first}, clock - window);
    assert Sound(Delete(d, {first}), full - {first}, limit, window, clock) by {
      OneKeyChanges(d, Delete(d, {first}), full, full - {first}, first, limit, window, clock);
    }
  }

  /** Every key's accepted calls are as before, or forgotten by a store that is full of live keys. */
  ghost predicate ForgetsOnlyWhenFull(before: map<Key, seq<real>>, after: map<Key, seq<real>>, key: Key,
                                      d: Dict, start: real) {
    forall k :: k != key ==> At(after, k) == At(before, k)
                             || (At(after, k) == [] && |d.keys| >= CAP && AllLive(d, start))
  }

  lemma Forgetting(before: map<Key, seq<real>>, full: map<Key, seq<real>>, key: Key, d: Dict, e: Dict,
                   start: real, first: Key)
    requires ForgetsOnlyWhenFull(before, full, key, d, start)
    requires first != key && |e.keys| >= CAP && AllLive(e, start)
    ensures ForgetsOnlyWhenFull(before, full - {first}, key, e, start)
  {
  }

  lemma UpdateElsewhere(m: map<Key, seq<real>>, key: Key, v: seq<real>)
    ensures At(m[key := v], key) == v && forall k :: k != key ==> At(m[key := v], k) == At(m, k)
  {
  }

  lemma ForgettingAlso(before: map<Key, seq<real>>, grown: map<Key, seq<real>>, after: map<Key, seq<real>>,
                       key: Key, d: Dict, start: real)
    requires forall k :: k != key ==> At(grown, k) == At(before, k)
    requires ForgetsOnlyWhenFull(grown, after, key, d, start)
    ensures ForgetsOnlyWhenFull(before, after, key, d, start)
  {
  }

  // ----- The limiter -----

  class Limiter {
    const limit: int
    const window: real
    var store: Dict

    /** Accepted calls of each key since it was last evicted, and the time of the last call. */
    ghost var full: map<Key, seq<real>>
    ghost var clock: real

    ghost predicate Valid()
      reads this
    {
      Sound(store, full, limit, window, clock) && |store.keys| <= CAP
    }

    constructor (limit: int, window: real)
      requires window > 0.0
      ensures Valid() && full == map[] && this.limit == limit && this.window == window
    {
      this.limit, this.window := limit, window;
      store, full, clock := Dict([], map[]), map[], 0.0;
    }

    /** The pruning at the start of `check`. */
    method Prune(key: Key, now: real) returns (recent: seq<real>)
      requires WellFormed(store)
      modifies this`store
      ensures WellFormed(store) && |store.keys| <= old(|store.keys|)
      ensures recent == Pruned(At(old(store).times, key), now - window) && At(store.times, key) == recent
      ensures forall k :: k != key ==> At(store.times, k) == At(old(store).times, k)
    {
      TrimmedIsSmall(store, Trimmed(store, key, now - window), key, now - window);
      recent := Pruned(At(store.times, key), now - window);
      if recent != [] {
        store := Assign(store, key, recent);
      } else if key in store.times {
        store := Delete(store, {key});
      }
    }

    /** The pruning as seen from the full history: what is left decides like the full list. */
    method Recent(key: Key, now: real) returns (recent: seq<real>)
      requires Sound(store, full, limit, window, clock) && clock <= now
      modifies this`store
      ensures Sound(store, full, limit, window, now) && |store.keys| <= old(|store.keys|)
      ensures recent == Pruned(At(full, key), now - window)
      ensures |recent| == CountIn(At(full, key), now - window, now)
    {
      ghost var before := store;
      recent := Prune(key, now);
      TrimmedSound(before, store, full, limit, window, clock, key, now);
      RecentCounts(store, full, limit, window, key, now);
    }

    /** `_maybe_cleanup`, called after `key` was recorded. */
    method Cleanup(now: real, ghost key: Key)
      requires Sound(store, full, limit, window, now) && Live(store, key, now - window)
      requires |store.keys| <= CAP || store.keys[|store.keys| - 1] == key
      modifies this`store, this`full
      ensures Sound(store, full, limit, window, now) && |store.keys| <= CAP
      ensures At(full, key) == old(At(full, key))
      ensures ForgetsOnlyWhenFull(old(full), full, key, store, now - window)
    {
      if |store.keys| > CAP {
        StaleDropped(store, full, limit, window, now, key);
        store := Delete(store, Stale(store, now - window));
        Evict(now, key);
      }
    }

    /** The eviction loop: the oldest keys go until the store fits. */
    method Evict(now: real, ghost key: Key)
      requires Sound(store, full, limit, window, now) && AllLive(store, now - window)
      requires store.keys != [] && store.keys[|store.keys| - 1] == key
      modifies this`store, this`full
      ensures Sound(store, full, limit, window, now) && |store.keys| <= CAP
      ensures At(full, key) == old(At(full, key))
      ensures ForgetsOnlyWhenFull(old(full), full, key, store, now - window)
    {
      ghost var before := full;
      while |store.keys| > CAP
        invariant Sound(store, full, limit, window, now) && AllLive(store, now - window)
        invariant store.keys != [] && store.keys[|store.keys| - 1] == key
        invariant At(full, key) == At(before, key)
        invariant ForgetsOnlyWhenFull(before, full, key, store, now - window)
      {
        ghost var d, rest := store, full;
        FirstEvicted(store, full, limit, window, now);
        var first := store.keys[0];
        assert first != key;
        store := Delete(store, {first});
        full := full - {first};
        Forgetting(before, rest, key, d, store, now - window, first);
      }
    }

    /** The accepting half of `check`: `setdefault`, `append`, `_maybe_cleanup`. */
    method Accept(key: Key, now: real)
      requires Sound(store, full, limit, window, now) && |store.keys| <= CAP
      requires |Pruned(At(full, key), now - window)| < limit
      modifies this`store, this`full
      ensures Sound(store, full, limit, window, now) && |store.keys| <= CAP
      ensures At(full, key) == old(At(full, key)) + [now]
      ensures ForgetsOnlyWhenFull(old(full), full, key, store, now - window)
    {
      ghost var before, grown := full, full[key := At(full, key) + [now]];
      AppendedSound(store, full, limit, window, key, now);
      store := Appended(store, key, now);
      full := grown;
      Cleanup(now, key);
      UpdateElsewhere(before, key, At(before, key) + [now]);
      ForgettingAlso(before, grown, full, key, store, now - window);
    }

    /**
     `check` at time `now`; the clock does not run backwards. Accepted calls are forgotten only when CAP
     keys have one in the present window.
     */
    method Check(key: Key, now: real) returns (ok: bool)
      requires Valid() && now >= clock
      modifies this
      ensures Valid() && clock == now && |store.keys| <= 10_000
      ensures ok <==> CountIn(old(At(full, key)), now - window, now) < limit
      ensures At(full, key) == old(At(full, key)) + if ok then [now] else []
      ensures ForgetsOnlyWhenFull(old(full), full, key, store, now - window)
    {
      var recent := Recent(key, now);
      clock := now;
      ok := |recent| < limit;
      if ok {
        Accept(key, now);
      }
    }
  }
}
