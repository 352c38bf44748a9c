/**
 The same subtitle file run again. Segments with equal text share a waiting list in dictionary order, so the
 order of the keys decides whether each of them gets its own audio back: the exact condition, and the runs
 that keep it.
 */
module CacheRetries {
  import opened Text
  import opened Sequences
  import opened SegmentCache
  import opened CacheTruth
  import opened CacheRuns
  import opened CacheHistory
  import opened CacheAdoption

  // ----- When an unchanged file moves nothing -----

  /** The segments with this content among the first `n`, in order. */
  function Wanted(segs: seq<string>, n: nat, text: string): seq<int>
    requires n <= |segs|
  {
    if n == 0 then []
    else Wanted(segs, n - 1, text) + if !Blank(segs[n - 1]) && segs[n - 1] == text then [n - 1] else []
  }

  /** Every spoken segment has its entry and its WAV. */
  ghost predicate Filled(c: Cache, segs: seq<string>) {
    ValidCache(c) && forall k :: Spoken(segs, k) ==> k in c.entries && c.entries[k].content == segs[k] && k in c.wavs
  }

  /** `ks` begins with the elements of `w`. */
  ghost predicate Leads(w: seq<int>, ks: seq<int>) {
    |w| <= |ks| && forall q :: 0 <= q < |w| ==> ks[q] == w[q]
  }

  /** The dictionary lists the entries of each content with the segments in their order first. */
  ghost predicate ListedInOrder(c: Cache, segs: seq<string>)
    requires ValidCache(c)
  {
    forall i :: 0 <= i < |segs| && !Blank(segs[i]) ==>
      Leads(Wanted(segs, |segs|, segs[i]), KeysWith(c.keys, c.entries, segs[i]))
  }

  /** A migration to this file leaves every spoken segment's WAV and entry as they are. */
  ghost predicate MovesNothing(c: Cache, segs: seq<string>)
    requires ValidCache(c)
  {
    !Migrated(c, segs).raised && forall k :: Spoken(segs, k) ==> SameAt(c, Migrated(c, segs).cache, k)
  }

  lemma {:induction false} WantedAt(segs: seq<string>, n: nat, i: nat)
    requires i < n <= |segs| && !Blank(segs[i])
    ensures var w, r := Wanted(segs, n, segs[i]), Asked(segs, i, segs[i]); r < |w| && w[r] == i
  {
    WantedCount(segs, i, segs[i]);
    if i < n - 1 { WantedAt(segs, n - 1, i); }
  }

  lemma {:induction false} WantedCount(segs: seq<string>, n: nat, text: string)
    requires n <= |segs|
    ensures |Wanted(segs, n, text)| == Asked(segs, n, text)
  {
    if n > 0 { WantedCount(segs, n - 1, text); }
  }

  lemma {:induction false} WantedRank(segs: seq<string>, n: nat, text: string, q: nat)
    requires n <= |segs| && q < |Wanted(segs, n, text)|
    ensures var j := Wanted(segs, n, text)[q];
            0 <= j < n && !Blank(segs[j]) && segs[j] == text && Asked(segs, j, text) == q
  {
    WantedCount(segs, n - 1, text);
    if q < |Wanted(segs, n - 1, text)| { WantedRank(segs, n - 1, text, q); }
  }

  /** Every spoken segment is matched to its own entry. */
  ghost predicate OwnMatches(c: Cache, segs: seq<string>)
    requires ValidCache(c)
  {
    forall i: nat :: Spoken(segs, i) ==> Match(c, segs, i) == Some(i)
  }

  lemma ListedIff(c: Cache, segs: seq<string>)
    requires ValidCache(c)
    ensures ListedInOrder(c, segs) <==> OwnMatches(c, segs)
  {
    if ListedInOrder(c, segs) {
      forall i: nat | Spoken(segs, i)
        ensures Match(c, segs, i) == Some(i)
      {
        WantedAt(segs, |segs|, i);
      }
    }
    if OwnMatches(c, segs) {
      forall i: nat | i < |segs| && !Blank(segs[i])
        ensures Leads(Wanted(segs, |segs|, segs[i]), KeysWith(c.keys, c.entries, segs[i]))
      {
        OwnMatchesList(c, segs, segs[i]);
      }
    }
  }

  lemma OwnMatchListed(c: Cache, segs: seq<string>, j: nat)
    requires ValidCache(c) && Spoken(segs, j) && Match(c, segs, j) == Some(j)
    ensures var ks, r := KeysWith(c.keys, c.entries, segs[j]), Asked(segs, j, segs[j]); r < |ks| && ks[r] == j
  {
  }

  lemma OwnMatchesList(c: Cache, segs: seq<string>, text: string)
    requires ValidCache(c) && OwnMatches(c, segs)
    ensures Leads(Wanted(segs, |segs|, text), KeysWith(c.keys, c.entries, text))
  {
    var n := |Wanted(segs, |segs|, text)|;
    if n > 0 { OwnMatchPlace(c, segs, text, n - 1); }
    forall q: nat | q < n
      ensures q < |KeysWith(c.keys, c.entries, text)|
              && KeysWith(c.keys, c.entries, text)[q] == Wanted(segs, |segs|, text)[q]
    {
      OwnMatchPlace(c, segs, text, q);
    }
  }

  lemma OwnMatchPlace(c: Cache, segs: seq<string>, text: string, q: nat)
    requires ValidCache(c) && OwnMatches(c, segs) && q < |Wanted(segs, |segs|, text)|
    ensures var ks := KeysWith(c.keys, c.entries, text); q < |ks| && ks[q] == Wanted(segs, |segs|, text)[q]
  {
    WantedRank(segs, |segs|, text, q);
    OwnMatchListed(c, segs, Wanted(segs, |segs|, text)[q]);
  }

  /** A segment that is matched to its own entry keeps everything. */
  lemma OwnMatchKeeps(c: Cache, segs: seq<string>, i: nat)
    requires Filled(c, segs) && !Migrated(c, segs).raised && Spoken(segs, i) && Match(c, segs, i) == Some(i)
    ensures SameAt(c, Migrated(c, segs).cache, i)
  {
    assert i in c.keys;
    SpokenAfter(c, segs, i);
  }

  lemma TakenLater(c: Cache, segs: seq<string>, i: nat, j: nat)
    requires ValidCache(c) && i < j < |segs| && Match(c, segs, j) == Some(i)
    requires Spoken(segs, i) && Match(c, segs, i).Some? && Match(c, segs, i) != Some(i)
    ensures Origin(c, segs, |segs|, i) == None
  {
    assert LaterTaken(c, segs, i, |segs|);
  }

  /** The first segment that is matched elsewhere, or to nothing, loses its WAV or makes the migration raise. */
  lemma FirstStrayLoses(c: Cache, segs: seq<string>, i: nat)
    requires Filled(c, segs) && Spoken(segs, i) && Match(c, segs, i) != Some(i)
    requires forall j: nat :: j < i && Spoken(segs, j) ==> Match(c, segs, j) == Some(j)
    ensures !MovesNothing(c, segs)
  {
    if !Migrated(c, segs).raised {
      assert c.keys != [] by { assert i in c.keys; }
      if Match(c, segs, i).Some? && Matched(c, segs, i) {
        var j: nat :| j < |segs| && Match(c, segs, j) == Some(i);
        assert j > i by { assert Spoken(segs, j); }
        TakenLater(c, segs, i, j);
      }
      assert segs[i] != "";
      SpokenAfter(c, segs, i);
      assert i !in Migrated(c, segs).cache.wavs;
      assert !SameAt(c, Migrated(c, segs).cache, i);
    }
  }

  lemma FirstStray(c: Cache, segs: seq<string>, n: nat) returns (i: nat)
    requires ValidCache(c) && n < |segs| && Spoken(segs, n) && Match(c, segs, n) != Some(n)
    ensures i <= n && Spoken(segs, i) && Match(c, segs, i) != Some(i)
    ensures forall j: nat :: j < i && Spoken(segs, j) ==> Match(c, segs, j) == Some(j)
  {
    if j: nat :| j < n && Spoken(segs, j) && Match(c, segs, j) != Some(j) {
      i := FirstStray(c, segs, j);
    } else {
      i := n;
    }
  }

  /** An unchanged file, duplicates included, moves nothing exactly when the dictionary lists the segments in order. */
  lemma UnchangedIff(c: Cache, segs: seq<string>)
    requires Filled(c, segs)
    ensures MovesNothing(c, segs) <==> ListedInOrder(c, segs)
  {
    ListedIff(c, segs);
    if OwnMatches(c, segs) {
      forall i: nat | i < |segs|
        ensures !RaisesAt(c, segs, i)
      {
        assert Spoken(segs, i) || Match(c, segs, i) == None;
      }
      FinalState(c, segs);
      forall k | Spoken(segs, k)
        ensures SameAt(c, Migrated(c, segs).cache, k)
      {
        OwnMatchKeeps(c, segs, k);
      }
    } else {
      var n: nat :| Spoken(segs, n) && Match(c, segs, n) != Some(n);
      var i := FirstStray(c, segs, n);
      FirstStrayLoses(c, segs, i);
    }
  }

  // ----- The runs that keep the order -----

  /** The indices of the spoken segments among the first `n`, ascending. */
  function SpokenUpTo(segs: seq<string>, n: nat): seq<int>
    requires n <= |segs|
  {
    if n == 0 then [] else SpokenUpTo(segs, n - 1) + if Blank(segs[n - 1]) then [] else [n - 1]
  }

  /** The dictionary holds the spoken segments of the file and nothing else, ascending; each has its WAV. */
  ghost predicate Ascending(c: Cache, segs: seq<string>) {
    Filled(c, segs) && c.keys == SpokenUpTo(segs, |segs|)
  }

  lemma {:induction false} SpokenMembers(segs: seq<string>, n: nat, k: int)
    requires n <= |segs|
    ensures k in SpokenUpTo(segs, n) <==> k < n && Spoken(segs, k)
  {
    if n > 0 { SpokenMembers(segs, n - 1, k); }
  }

  /** The entries tell the spoken segments. */
  ghost predicate Told(segs: seq<string>, entries: map<int, Entry>) {
    forall k :: Spoken(segs, k) ==> k in entries && entries[k].content == segs[k]
  }

  lemma ToldKeys(segs: seq<string>, entries: map<int, Entry>, n: nat)
    requires n <= |segs| && Told(segs, entries)
    ensures forall k :: k in SpokenUpTo(segs, n) ==> k in entries
  {
    forall k | k in SpokenUpTo(segs, n)
      ensures k in entries
    {
      SpokenMembers(segs, n, k);
    }
  }

  lemma KeysWithOneMore(keys: seq<int>, entries: map<int, Entry>, k: int, text: string)
    requires k in entries && forall x :: x in keys ==> x in entries
    ensures KeysWith(keys + [k], entries, text)
         == KeysWith(keys, entries, text) + if entries[k].content == text then [k] else []
  {
    assert (keys + [k])[..|keys|] == keys;
  }

  /** In an ascending dictionary every content is listed in segment order. */
  lemma {:induction false} AscendingLists(segs: seq<string>, entries: map<int, Entry>, n: nat, text: string)
    requires n <= |segs| && Told(segs, entries) && forall k :: k in SpokenUpTo(segs, n) ==> k in entries
    ensures KeysWith(SpokenUpTo(segs, n), entries, text) == Wanted(segs, n, text)
  {
    if n > 0 {
      ToldKeys(segs, entries, n - 1);
      AscendingLists(segs, entries, n - 1, text);
      if Blank(segs[n - 1]) {
        assert SpokenUpTo(segs, n) == SpokenUpTo(segs, n - 1);
      } else {
        assert Spoken(segs, n - 1);
        KeysWithOneMore(SpokenUpTo(segs, n - 1), entries, n - 1, text);
      }
    }
  }

  lemma AscendingMovesNothing(c: Cache, segs: seq<string>)
    requires Ascending(c, segs)
    ensures MovesNothing(c, segs) && OwnMatches(c, segs)
  {
    ToldKeys(segs, c.entries, |segs|);
    forall i | 0 <= i < |segs| && !Blank(segs[i])
      ensures Leads(Wanted(segs, |segs|, segs[i]), KeysWith(c.keys, c.entries, segs[i]))
    {
      AscendingLists(segs, c.entries, |segs|, segs[i]);
    }
    UnchangedIff(c, segs);
    ListedIff(c, segs);
  }

  /** The migration so far has left the whole cache as it was, the order of the keys included. */
  ghost predicate Untouched(c: Cache, segs: seq<string>, n: nat, m: Migration)
    requires ValidCache(c) && n <= |segs|
  {
    m.cache == c && !m.raised && WaitingAt(c, segs, n, m.waiting)
  }

  lemma {:induction false} NothingTouched(c: Cache, segs: seq<string>, n: nat)
    requires Filled(c, segs) && OwnMatches(c, segs) && n <= |segs|
    ensures Untouched(c, segs, n, MatchSegments(Start(c), segs, n))
  {
    if n == 0 {
      WaitingAtStart(c, segs);
    } else {
      NothingTouched(c, segs, n - 1);
      OneUntouched(c, segs, n - 1, MatchSegments(Start(c), segs, n - 1));
    }
  }

  lemma OneUntouched(c: Cache, segs: seq<string>, n: nat, m: Migration)
    requires Filled(c, segs) && OwnMatches(c, segs) && n < |segs| && Untouched(c, segs, n, m)
    ensures Untouched(c, segs, n + 1, MatchSegment(m, n, segs[n]))
  {
    WaitingStep(c, segs, n, m);
    if !Blank(segs[n]) { OwnSegment(c, segs, n, m); }
  }

  lemma OwnSegment(c: Cache, segs: seq<string>, n: nat, m: Migration)
    requires Filled(c, segs) && Spoken(segs, n) && Match(c, segs, n) == Some(n)
    requires m.cache == c && !m.raised && WaitingAt(c, segs, n, m.waiting)
    ensures MatchSegment(m, n, segs[n]).cache == c && !MatchSegment(m, n, segs[n]).raised
  {
    WaitingHead(c, segs, n, m.waiting);
    assert m.waiting[segs[n]][0] == (n, c.entries[n].duration);
    assert c.entries[n] == Entry(segs[n], c.entries[n].duration, c.entries[n].fallback);
    assert c.entries[n := c.entries[n]] == c.entries;
  }

  lemma NoneStale(c: Cache, segs: seq<string>, k: int)
    requires Ascending(c, segs) && OwnMatches(c, segs)
    ensures !Stale(c, segs, k)
  {
    if k in c.keys {
      SpokenMembers(segs, |segs|, k);
      var i: nat := k;
      assert Match(c, segs, i) == Some(k);
    }
  }

  lemma AscendingMigrated(c: Cache, segs: seq<string>)
    requires Ascending(c, segs)
    ensures !Migrated(c, segs).raised && Migrated(c, segs).cache == c
  {
    AscendingMovesNothing(c, segs);
    if c.keys != [] {
      NothingTouched(c, segs, |segs|);
      var w := MatchSegments(Start(c), segs, |segs|).waiting;
      WaitingAreStale(c, segs, w);
      forall k
        ensures k !in Unmatched(w)
      {
        NoneStale(c, segs, k);
      }
      assert Unmatched(w) == {};
      SweepNone(c);
    }
  }

  lemma AscendingChecked(c: Cache, segs: seq<string>)
    requires Ascending(c, segs)
    ensures Checked(c, segs).0 == c
    ensures Generates(c, segs) <==> exists i: nat :: Spoken(segs, i) && !CheckCache(c, i, segs[i]).hit
  {
    AscendingMigrated(c, segs);
    CheckAllReads(c, segs, |segs|);
  }

  /** The generation loop on such a cache only rewrites entries where they stand. */
  lemma {:induction false} PassesKeepKeys(c: Cache, segs: seq<string>, takes: seq<Take>, n: nat)
    requires Ascending(c, segs) && n <= |segs| == |takes|
    ensures var m := Passes(c, segs, takes, n).memory; ValidCache(m) && m.keys == c.keys
  {
    if n > 0 {
      PassesKeepKeys(c, segs, takes, n - 1);
      PassKeepsKeys(Passes(c, segs, takes, n - 1).memory, segs, n - 1, takes[n - 1]);
    }
  }

  lemma PassKeepsKeys(m: Cache, segs: seq<string>, n: nat, take: Take)
    requires ValidCache(m) && n < |segs| && m.keys == SpokenUpTo(segs, |segs|)
    ensures var r := PassMemory(m, n, segs[n], take); ValidCache(r) && r.keys == m.keys
  {
    SpokenMembers(segs, |segs|, n);
    PassMemoryValid(m, n, segs[n], take);
    HitRecords(m, n, segs[n]);
    if Blank(segs[n]) { WithoutAbsent(m.keys, {n as int}); }
  }

  /** A whole run on the same file keeps the order, and so it can be repeated. */
  lemma RetryKeepsAscending(c: Cache, segs: seq<string>, takes: seq<Take>)
    requires Ascending(c, segs) && |takes| == |segs|
    ensures Ascending(AfterRun(c, segs, takes), segs)
  {
    AscendingChecked(c, segs);
    if Generates(c, segs) {
      PassesKeepKeys(c, segs, takes, |segs|);
      RetryLoop(c, segs, takes);
      forall k | Spoken(segs, k)
        ensures var r := AfterRun(c, segs, takes); k in r.entries && r.entries[k].content == segs[k] && k in r.wavs
      {
        assert LoopAt(c, segs, takes, |segs|, GeneratedTo(c, segs, takes, |segs|), k);
      }
    }
  }

  lemma RetryLoop(c: Cache, segs: seq<string>, takes: seq<Take>)
    requires Ascending(c, segs) && |takes| == |segs|
    ensures LoopInv(c, segs, takes, |segs|, GeneratedTo(c, segs, takes, |segs|))
  {
    AscendingChecked(c, segs);
    forall k | k in c.entries
      ensures c.entries[k].content != ""
    {
      assert k in c.keys;
      SpokenMembers(segs, |segs|, k);
    }
    PassesKeepLoop(c, segs, takes, |segs|);
  }

  /**
   What a retry does to segment `i`: text without a letter becomes silence again whenever anything is generated,
   a hit keeps its audio, and a silent or flagged one is generated again and flagged as that comes out.
   */
  lemma RetryAt(c: Cache, segs: seq<string>, takes: seq<Take>, i: nat)
    requires Ascending(c, segs) && |takes| == |segs| && Spoken(segs, i) && !takes[i].nonVerbal
    ensures var d := AfterRun(c, segs, takes);
            && i in d.wavs && i in d.entries && d.entries[i].content == segs[i]
            && (if Audible(c, i) && !c.entries[i].fallback
                then d.wavs[i] == c.wavs[i] && d.entries[i] == c.entries[i]
                else d.wavs[i] == takes[i].wav && d.entries[i].duration == takes[i].wav.length
                     && d.entries[i].fallback == takes[i].fallback)
  {
    AscendingChecked(c, segs);
    HitRecords(c, i, segs[i]);
    if Generates(c, segs) {
      RetryLoop(c, segs, takes);
      assert LoopAt(c, segs, takes, |segs|, GeneratedTo(c, segs, takes, |segs|), i);
    }
  }

  // ----- From the first run on -----

  /** The first run: files may lie about, but none of them is audible. */
  ghost predicate Empty(c: Cache) {
    Unrecorded(c) && forall k :: !Audible(c, k)
  }

  lemma EmptyChecked(c: Cache, segs: seq<string>)
    requires Empty(c)
    ensures ValidCache(c) && Checked(c, segs).0 == c && !Migrated(c, segs).raised
    ensures Generates(c, segs) <==> exists i: nat :: Spoken(segs, i)
  {
    UnrecordedChecked(c, segs);
    CheckAllReads(c, segs, |segs|);
  }

  lemma {:induction false} FirstKeys(c: Cache, segs: seq<string>, takes: seq<Take>, n: nat)
    requires Empty(c) && n <= |segs| == |takes|
    ensures var m := Passes(c, segs, takes, n).memory;
            ValidCache(m) && m.keys == SpokenUpTo(segs, n) && forall k :: k >= n ==> !Audible(m, k)
  {
    if n > 0 {
      FirstKeys(c, segs, takes, n - 1);
      FirstKey(Passes(c, segs, takes, n - 1).memory, segs, n - 1, takes[n - 1]);
    }
  }

  lemma FirstKey(m: Cache, segs: seq<string>, n: nat, take: Take)
    requires ValidCache(m) && n < |segs| && m.keys == SpokenUpTo(segs, n) && forall k :: k >= n ==> !Audible(m, k)
    ensures var r := PassMemory(m, n, segs[n], take);
            ValidCache(r) && r.keys == SpokenUpTo(segs, n + 1) && forall k :: k >= n + 1 ==> !Audible(r, k)
  {
    SpokenMembers(segs, n, n);
    PassMemoryValid(m, n, segs[n], take);
    HitRecords(m, n, segs[n]);
    if Blank(segs[n]) { WithoutAbsent(m.keys, {n as int}); }
    forall k | k >= n + 1
      ensures !Audible(PassMemory(m, n, segs[n], take), k)
    {
      PassMemoryAt(m, n, segs[n], take, k);
      assert !Audible(m, k);
    }
  }

  lemma FirstRunFills(c: Cache, segs: seq<string>, takes: seq<Take>, k: int)
    requires Empty(c) && |takes| == |segs| && Spoken(segs, k)
    ensures var r := AfterRun(c, segs, takes); k in r.entries && r.entries[k].content == segs[k] && k in r.wavs
  {
    EmptyChecked(c, segs);
    UnrecordedLoop(c, segs, takes);
    HitRecords(c, k, segs[k]);
    assert LoopAt(c, segs, takes, |segs|, GeneratedTo(c, segs, takes, |segs|), k);
  }

  lemma FirstRunAscends(c: Cache, segs: seq<string>, takes: seq<Take>)
    requires Empty(c) && |takes| == |segs|
    ensures Ascending(AfterRun(c, segs, takes), segs)
  {
    EmptyChecked(c, segs);
    if Generates(c, segs) {
      FirstKeys(c, segs, takes, |segs|);
      forall k | Spoken(segs, k)
        ensures var r := AfterRun(c, segs, takes); k in r.entries && r.entries[k].content == segs[k] && k in r.wavs
      {
        FirstRunFills(c, segs, takes, k);
      }
    } else {
      NothingSpoken(segs, |segs|);
    }
  }

  lemma {:induction false} NothingSpoken(segs: seq<string>, n: nat)
    requires n <= |segs| && !exists i: nat :: Spoken(segs, i)
    ensures SpokenUpTo(segs, n) == []
  {
    if n > 0 {
      NothingSpoken(segs, n - 1);
      assert !Spoken(segs, n - 1);
    }
  }

  /** Whole runs on the same file, one after the other. */
  ghost function AfterRetries(c: Cache, segs: seq<string>, retries: seq<seq<Take>>): (d: Cache)
    requires ValidCache(c) && forall takes :: takes in retries ==> |takes| == |segs|
    ensures ValidCache(d)
  {
    if retries == [] then c
    else
      var n := |retries| - 1;
      assert forall takes :: takes in retries[..n] ==> takes in retries;
      var before := AfterRetries(c, segs, retries[..n]);
      assert retries[n] in retries;
      GeneratedValid(before, segs, retries[n], |segs|);
      AfterRun(before, segs, retries[n])
  }

  /**
   From an empty directory on, the same file run any number of times, duplicates included: the dictionary holds
   the spoken segments in ascending order, and no migration touches the cache.
   */
  lemma {:induction false} RetriesMoveNothing(c: Cache, segs: seq<string>, retries: seq<seq<Take>>)
    requires Empty(c) && retries != [] && forall takes :: takes in retries ==> |takes| == |segs|
    ensures ValidCache(c) && Ascending(AfterRetries(c, segs, retries), segs)
    ensures var d := AfterRetries(c, segs, retries); !Migrated(d, segs).raised && Migrated(d, segs).cache == d
  {
    EmptyChecked(c, segs);
    var n := |retries| - 1;
    assert retries[n] in retries;
    assert forall takes :: takes in retries[..n] ==> takes in retries;
    if n == 0 {
      assert AfterRetries(c, segs, retries[..0]) == c;
      FirstRunAscends(c, segs, retries[0]);
    } else {
      RetriesMoveNothing(c, segs, retries[..n]);
      RetryKeepsAscending(AfterRetries(c, segs, retries[..n]), segs, retries[n]);
    }
    AscendingMigrated(AfterRetries(c, segs, retries), segs);
  }

  // ----- How the order is lost -----

  lemma ReversedPairMoves(c: Cache, text: string)
    requires Filled(c, [text, text]) && !Blank(text) && c.keys == [1, 0]
    ensures !MovesNothing(c, [text, text])
  {
    var segs := [text, text];
    assert c.keys[..1] == [1] && [1][..0] == [];
    assert KeysWith([1], c.entries, text) == [1];
    assert 0 in c.keys && 1 in c.keys && Spoken(segs, 0) && Spoken(segs, 1);
    assert KeysWith(c.keys, c.entries, text) == [1, 0];
    assert Match(c, segs, 0) == Some(1);
    FirstStrayLoses(c, segs, 0);
  }

  lemma TornChecked(c: Cache, text: string)
    requires Unrecorded(c) && Audible(c, 1) && !Audible(c, 0) && !Blank(text)
    ensures var checked := Checked(c, [text, text]).0;
            checked == c.(keys := [1], entries := map[1 := Entry(text, c.wavs[1].length, false)])
    ensures Generates(c, [text, text])
  {
    var segs := [text, text];
    UnrecordedChecked(c, segs);
    assert Spoken(segs, 0);
    assert CheckAll(c, segs, 0) == (c, true);
    assert CheckAll(c, segs, 1).0 == c;
    assert CheckAll(c, segs, 2).0 == CheckCache(c, 1, text).cache;
    assert c.keys + [1] == [1];
  }

  lemma TornPasses(c: Cache, text: string, takes: seq<Take>)
    requires c.keys == [1] && Lookup(c.entries, 1).Some? && 0 !in c.entries && !Audible(c, 0) && Audible(c, 1)
    requires !c.entries[1].fallback && c.entries[1].content == text && !Blank(text)
    requires |takes| == 2 && !takes[0].nonVerbal && !takes[1].nonVerbal
    ensures var m := Passes(c, [text, text], takes, 2).memory;
            m.keys == [1, 0] && m == PutEntry(SaveWav(c, 0, takes[0].wav), 0, Entry(text, takes[0].wav.length, takes[0].fallback))
  {
    var segs := [text, text];
    var m := PutEntry(SaveWav(c, 0, takes[0].wav), 0, Entry(text, takes[0].wav.length, takes[0].fallback));
    assert PassMemory(c, 0, text, takes[0]) == m;
    assert Passes(c, segs, takes, 0).memory == c;
    assert Passes(c, segs, takes, 1).memory == m;
    assert PassMemory(m, 1, text, takes[1]) == m;
    assert Passes(c, segs, takes, 2).memory == m;
  }

  /**
   Two equal cues, the audio of the second left on disk by a run whose last save was torn: the next run adopts
   it before it generates the first, and from then on the unchanged file does not keep both WAVs.
   */
  lemma TornRunReverses(c: Cache, text: string, takes: seq<Take>)
    requires Unrecorded(c) && Audible(c, 1) && !Audible(c, 0) && !Blank(text)
    requires |takes| == 2 && !takes[0].nonVerbal && !takes[1].nonVerbal
    ensures var d := AfterRun(c, [text, text], takes);
            Filled(d, [text, text]) && d.keys == [1, 0] && !MovesNothing(d, [text, text])
  {
    var segs := [text, text];
    TornChecked(c, text);
    TornPasses(Checked(c, segs).0, text, takes);
    GeneratedValid(c, segs, takes, 2);
    ReversedPairMoves(AfterRun(c, segs, takes), text);
  }
}
