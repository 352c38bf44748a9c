/**
 Two ways in which the segment cache comes to play the wrong words: after a raise, and after a run that left
 an entry without its audio. Both start from an ordinary cache, truthful and with every WAV in place.
 */
module CacheFailures {
  import opened Text
  import opened SegmentCache
  import opened CacheTruth
  import opened CacheRuns
  import opened CacheHistory

  /** Given segments, all different and each with one entry of its content at `pairs[i]`, or none (None). */
  ghost predicate Pairs(c: Cache, segs: seq<string>, pairs: seq<Option<int>>)
    requires ValidCache(c)
  {
    && |pairs| == |segs|
    && (forall i, j :: 0 <= i < j < |segs| ==> segs[i] != segs[j])
    && (forall i :: 0 <= i < |segs| && !Blank(segs[i]) ==>
          if pairs[i].Some? then
            pairs[i].value in c.entries && forall k :: k in c.entries ==> (c.entries[k].content == segs[i] <==> k == pairs[i].value)
          else forall k :: k in c.entries ==> c.entries[k].content != segs[i])
  }

  lemma PairsMatch(c: Cache, segs: seq<string>, pairs: seq<Option<int>>, i: nat)
    requires ValidCache(c) && Pairs(c, segs, pairs) && i < |segs| && !Blank(segs[i])
    ensures Match(c, segs, i) == pairs[i]
  {
    if pairs[i].Some? {
      MatchUnique(c, segs, i, pairs[i].value);
    } else {
      MatchNobody(c, segs, i);
    }
  }

  ghost predicate Swaps(c: Cache, segs: seq<string>)
    requires ValidCache(c)
  {
    && |segs| == 4
    && Match(c, segs, 0) == Some(1) && Match(c, segs, 1) == Some(0)
    && Match(c, segs, 2) == None && Match(c, segs, 3) == Some(2)
    && forall i :: 0 <= i < 4 ==> !Blank(segs[i])
  }

  lemma SwapMatches(c: Cache, a: string, b: string, x: string, y: string, cue: string)
    requires CachesExactly(c, [a, b, x, y]) && !Blank(cue) && cue !in [a, b, x, y]
    ensures Swaps(c, [b, a, cue, x])
  {
    var cues, segs := [a, b, x, y], [b, a, cue, x];
    var pairs := [Some(1), Some(0), None, Some(2)];
    assert cues[0] == a && cues[1] == b && cues[2] == x && cues[3] == y;
    assert Pairs(c, segs, pairs);
    PairsMatch(c, segs, pairs, 0);
    PairsMatch(c, segs, pairs, 1);
    PairsMatch(c, segs, pairs, 2);
    PairsMatch(c, segs, pairs, 3);
  }

  /** Four cached cues: swapping the first two with a new one in third place raises at the fourth. */
  lemma SwapRaises(c: Cache, segs: seq<string>)
    requires ValidCache(c) && Backed(c) && Swaps(c, segs) && forall k :: 0 <= k < 4 ==> k in c.wavs
    ensures FirstRaise(c, segs, 3) && Origin(c, segs, 3, 1) == Some(0)
  {
    BackedRaisesIff(c, segs, 0);
    BackedRaisesIff(c, segs, 1);
    BackedRaisesIff(c, segs, 2);
    BackedRaisesIff(c, segs, 3);
  }

  /** The dictionary tells exactly these cues, all different and spoken, whatever files there are. */
  ghost predicate Tells(c: Cache, cues: seq<string>) {
    && ValidCache(c)
    && (forall k :: k in c.entries <==> 0 <= k < |cues|)
    && (forall k :: 0 <= k < |cues| ==> c.entries[k].content == cues[k] && !Blank(cues[k]))
    && (forall j, k :: 0 <= j < k < |cues| ==> cues[j] != cues[k])
  }

  /** An SRT that the dictionary tells moves nothing: a segment hits whatever audible WAV has its index. */
  lemma SameFileHits(c: Cache, cues: seq<string>, i: nat)
    requires Tells(c, cues) && i < |cues| && Audible(c, i) && !c.entries[i].fallback
    ensures !Migrated(c, cues).raised
    ensures var after := Migrated(c, cues).cache;
            CheckCache(after, i, cues[i]).hit && i in after.wavs && after.wavs[i] == c.wavs[i]
  {
    forall k: nat | k < |cues|
      ensures Match(c, cues, k) == Some(k)
    {
      MatchUnique(c, cues, k, k);
    }
    FinalState(c, cues);
    assert i in c.keys;
    HitIff(c, cues, i);
  }

  /** The raise has moved one cue's audio under another's entry: going back to the old file plays it there. */
  lemma RevertPlaysTheOther(c: Cache, a: string, b: string, x: string, y: string, cue: string)
    requires CachesExactly(c, [a, b, x, y]) && !Blank(cue) && cue !in [a, b, x, y]
    requires Truthful(c) && Audible(c, 0) && !c.entries[1].fallback
    ensures Migrated(c, [b, a, cue, x]).raised
    ensures var d := c.(wavs := Migrated(c, [b, a, cue, x]).cache.wavs);
            && ValidCache(d) && !Migrated(d, [a, b, x, y]).raised
            && var after := Migrated(d, [a, b, x, y]).cache;
               CheckCache(after, 1, b).hit && 1 in after.wavs && after.wavs[1].speech == Some(a) && a != b
  {
    var cues, segs := [a, b, x, y], [b, a, cue, x];
    assert cues[0] == a && cues[1] == b;
    SwapMatches(c, a, b, x, y, cue);
    SwapRaises(c, segs);
    FinalState(c, segs);
    var d := c.(wavs := Migrated(c, segs).cache.wavs);
    var r: nat :| FirstRaise(c, segs, r) && LeavesWavs(c, segs, r, Migrated(c, segs));
    assert r == 3;
    assert TruthAt(c, 0);
    assert Lookup(d.wavs, 1) == WavAfter(c, segs, 3, 1) == Some(c.wavs[0]);
    SameFileHits(d, cues, 1);
  }

  lemma ShortMatches(c: Cache, x: string, p: string, q: string)
    requires CachesExactly(c, [x, p, q])
    ensures Match(c, [q, p], 0) == Some(2) && Match(c, [q, p], 1) == Some(1)
    ensures !Blank(q) && !Blank(p) && Stale(c, [q, p], 0) && 0 in c.keys
  {
    var cues, segs := [x, p, q], [q, p];
    var pairs := [Some(2), Some(1)];
    assert cues[0] == x && cues[1] == p && cues[2] == q;
    assert Pairs(c, segs, pairs);
    PairsMatch(c, segs, pairs, 0);
    PairsMatch(c, segs, pairs, 1);
  }

  /** The migration drops the new entry of the first segment with the stale one of its index. */
  lemma ShortMigratedAt(c: Cache, segs: seq<string>, k: int)
    requires ValidCache(c) && 0 in c.keys && |segs| == 2 && !Blank(segs[0]) && !Blank(segs[1])
    requires Match(c, segs, 0) == Some(2) && Match(c, segs, 1) == Some(1) && Stale(c, segs, 0)
    requires !Migrated(c, segs).raised && 1 in c.entries && 1 in c.wavs
    requires forall i :: i in c.entries || i in c.wavs ==> 0 <= i < 3
    ensures var m := Migrated(c, segs).cache;
            && Lookup(m.wavs, k) == (if k == 1 then Lookup(c.wavs, 1) else None)
            && Lookup(m.entries, k)
               == if k == 1 then Some(Entry(segs[1], c.entries[1].duration, c.entries[1].fallback))
                  else if k == 2 then Lookup(c.entries, 2) else None
  {
    FinalState(c, segs);
    assert Lookup(Migrated(c, segs).cache.wavs, k)
        == if Stale(c, segs, k) then None else WavAfter(c, segs, 2, k);
    assert Lookup(Migrated(c, segs).cache.entries, k)
        == if Stale(c, segs, k) then None else EntryAfter(c, segs, 2, k);
    assert !Stale(c, segs, 1) && !Stale(c, segs, 2);
  }

  /** What the short run leaves: the last entry stands at index 2 without audio, and again, with audio, at 0. */
  ghost predicate Shortened(d: Cache, p: string, q: string, wav: Wav) {
    && ValidCache(d)
    && (forall k :: k in d.entries <==> 0 <= k < 3) && (forall k :: k in d.wavs <==> 0 <= k < 2)
    && d.entries[0].content == q && d.entries[1].content == p && d.entries[2].content == q
    && !d.entries[1].fallback && d.wavs[1] == wav
    && d.keys != [] && d.keys[|d.keys| - 1] == 0
  }

  /** The two passes of the loop, on the cache that the migration leaves. */
  lemma ShortPasses(m: Cache, p: string, q: string, takes: seq<Take>)
    requires ValidCache(m) && |takes| == 2 && !Blank(p) && !Blank(q) && !takes[1].nonVerbal
    requires (forall k :: k in m.entries <==> k == 1 || k == 2) && forall k :: k in m.wavs <==> k == 1
    requires m.entries[1].content == p && m.entries[2].content == q && !m.entries[1].fallback && Audible(m, 1)
    ensures Shortened(Passes(m, [q, p], takes, 2).memory, p, q, m.wavs[1])
  {
    var segs := [q, p];
    var r0 := Passes(m, segs, takes, 0);
    var r1 := Passes(m, segs, takes, 1);
    assert r1 == Pass(r0, 0, q, takes[0]);
    var r2 := Passes(m, segs, takes, 2);
    assert r2 == Pass(r1, 1, p, takes[1]);
    FirstPass(m, p, q, takes[0]);
    HitPass(r1.memory, 1, p, takes[1]);
  }

  /** The first segment is generated, whatever its text is like. */
  lemma FirstPass(m: Cache, p: string, q: string, take: Take)
    requires ValidCache(m) && !Blank(q)
    requires (forall k :: k in m.entries <==> k == 1 || k == 2) && forall k :: k in m.wavs <==> k == 1
    requires m.entries[1].content == p && m.entries[2].content == q && !m.entries[1].fallback
    ensures Shortened(PassMemory(m, 0, q, take), p, q, m.wavs[1])
  {
    PassMemoryValid(m, 0, q, take);
    assert PassMemory(m, 0, q, take).keys == m.keys + [0];
  }

  /** The second hits and leaves everything. */
  lemma HitPass(c: Cache, i: int, text: string, take: Take)
    requires !Blank(text) && !take.nonVerbal && i in c.entries && CheckCache(c, i, text).hit
    ensures PassMemory(c, i, text, take) == c
  {
  }

  lemma QuietPasses(d: Cache, segs: seq<string>)
    requires ValidCache(d) && forall i: nat :: i < |segs| ==> !RaisesAt(d, segs, i)
    ensures !Migrated(d, segs).raised
  {
    FinalState(d, segs);
  }

  lemma ShortMigrated(c: Cache, x: string, p: string, q: string)
    requires CachesExactly(c, [x, p, q])
    ensures !Migrated(c, [q, p]).raised && ValidCache(Migrated(c, [q, p]).cache)
    ensures var m := Migrated(c, [q, p]).cache;
            && (forall k :: k in m.entries <==> k == 1 || k == 2) && (forall k :: k in m.wavs <==> k == 1)
            && m.entries[1] == Entry(p, c.entries[1].duration, c.entries[1].fallback)
            && m.entries[2].content == q && m.wavs[1] == c.wavs[1]
  {
    var cues, segs := [x, p, q], [q, p];
    assert cues[1] == p && cues[2] == q;
    ShortMatches(c, x, p, q);
    BackedRaisesIff(c, segs, 0);
    BackedRaisesIff(c, segs, 1);
    QuietPasses(c, segs);
    var m := Migrated(c, segs).cache;
    forall k
      ensures k in m.entries <==> k == 1 || k == 2
      ensures k in m.wavs <==> k == 1
    {
      ShortMigratedAt(c, segs, k);
    }
    ShortMigratedAt(c, segs, 1);
    ShortMigratedAt(c, segs, 2);
    assert c.entries[2].content == cues[2];
    MigratedValid(c, segs);
  }

  lemma ShortRun(c: Cache, x: string, p: string, q: string, takes: seq<Take>)
    requires CachesExactly(c, [x, p, q]) && Truthful(c) && Audible(c, 1) && !c.entries[1].fallback
    requires Honest([q, p], takes) && !takes[1].nonVerbal
    ensures CanEnd(c, Edit([q, p], takes, Whole)) && Truthful(AfterRun(c, [q, p], takes))
    ensures Shortened(AfterRun(c, [q, p], takes), p, q, c.wavs[1])
  {
    var segs := [q, p];
    ShortMatches(c, x, p, q);
    ShortMigrated(c, x, p, q);
    MigratedHasNoOrphans(c, segs);
    assert Spoken(segs, 0) && !Hits(c, segs, 0);
    ShortPasses(Migrated(c, segs).cache, p, q, takes);
    RunKeepsTruth(c, segs, takes);
  }

  lemma FirstOfTwo(d: Cache, p: string, q: string, wav: Wav)
    requires Shortened(d, p, q, wav) && p != q
    ensures var ks := KeysWith(d.keys, d.entries, q); |ks| >= 2 && ks[0] == 2
  {
    var most := d.keys[..|d.keys| - 1];
    assert 2 in d.keys && 2 in most;
    KeysWithComplete(most, d.entries, 2);
    var ks := KeysWith(most, d.entries, q);
    assert KeysWith(d.keys, d.entries, q) == ks + [0];
    assert ks[0] in ks && ks[0] in most;
    assert 0 !in most;
  }

  lemma LaterMatches(d: Cache, x: string, p: string, q: string, wav: Wav, blank: string)
    requires Shortened(d, p, q, wav) && x != p && x != q && p != q && Blank(blank)
    requires !Blank(x) && !Blank(p) && !Blank(q)
    ensures var segs := [x, blank, p, q];
            && Match(d, segs, 0) == None && Match(d, segs, 1) == None
            && Match(d, segs, 2) == Some(1) && Match(d, segs, 3) == Some(2)
  {
    var segs := [x, blank, p, q];
    MatchNobody(d, segs, 0);
    MatchUnique(d, segs, 2, 1);
    assert Match(d, segs, 3) == Some(2) by {
      FirstOfTwo(d, p, q, wav);
      NotAskedBefore(segs, 3, q);
    }
  }

  ghost predicate Later(d: Cache, segs: seq<string>)
    requires ValidCache(d)
  {
    && |segs| == 4 && Match(d, segs, 0) == None && Match(d, segs, 1) == None
    && Match(d, segs, 2) == Some(1) && Match(d, segs, 3) == Some(2)
    && !Blank(segs[0]) && Blank(segs[1]) && !Blank(segs[2]) && !Blank(segs[3])
    && (forall k :: k in d.wavs <==> 0 <= k < 2) && (forall k :: k in d.entries <==> 0 <= k < 3)
  }

  lemma LaterOrigin(d: Cache, segs: seq<string>)
    requires ValidCache(d) && Later(d, segs)
    ensures Origin(d, segs, 4, 3) == Some(1)
  {
    assert Origin(d, segs, 2, 1) == Some(1);
    assert Origin(d, segs, 3, 2) == Some(1);
  }

  lemma LaterQuiet(d: Cache, segs: seq<string>, i: nat)
    requires ValidCache(d) && Later(d, segs) && i < 4
    ensures !RaisesAt(d, segs, i)
  {
  }

  lemma LaterLookup(d: Cache, segs: seq<string>)
    requires ValidCache(d) && Later(d, segs) && Audible(d, 1) && !d.entries[1].fallback
    ensures Hits(d, segs, 3)
  {
    LaterOrigin(d, segs);
    assert !FallbackWritten(d, segs, 2);
  }

  /** The next edit moves the middle cue's audio to index 2 and on, under the last cue's entry. */
  lemma LaterHits(d: Cache, segs: seq<string>)
    requires ValidCache(d) && Later(d, segs) && Audible(d, 1) && !d.entries[1].fallback
    ensures !Migrated(d, segs).raised
    ensures var after := Migrated(d, segs).cache;
            CheckCache(after, 3, segs[3]).hit && 3 in after.wavs && after.wavs[3] == d.wavs[1]
  {
    forall i: nat | i < |segs|
      ensures !RaisesAt(d, segs, i)
    {
      LaterQuiet(d, segs, i);
    }
    QuietPasses(d, segs);
    assert d.keys != [] by { assert 0 in d.keys; }
    assert Origin(d, segs, |segs|, 3) == Some(1) by { LaterOrigin(d, segs); }
    assert Hits(d, segs, 3) by { LaterLookup(d, segs); }
    HitIff(d, segs, 3);
  }

  /**
   From an ordinary cache of three cues: a run on the last and the middle one, then an edit that puts the first
   back, inserts a blank one and keeps the order of the others, plays the middle cue's audio for the last.
   */
  lemma LeftBehindEntryLies(c: Cache, x: string, p: string, q: string, takes: seq<Take>, blank: string)
    requires CachesExactly(c, [x, p, q]) && Truthful(c) && Audible(c, 1) && !c.entries[1].fallback
    requires Honest([q, p], takes) && !takes[1].nonVerbal && Blank(blank)
    ensures CanEnd(c, Edit([q, p], takes, Whole)) && Truthful(AfterRun(c, [q, p], takes))
    ensures var d, segs := AfterRun(c, [q, p], takes), [x, blank, p, q];
            && !Backed(d) && !Migrated(d, segs).raised
            && var after := Migrated(d, segs).cache;
               CheckCache(after, 3, q).hit && 3 in after.wavs && after.wavs[3].speech == Some(p) && p != q
  {
    var cues := [x, p, q];
    assert cues[0] == x && cues[1] == p && cues[2] == q;
    ShortRun(c, x, p, q, takes);
    var d := AfterRun(c, [q, p], takes);
    assert TruthAt(c, 1);
    assert 2 in d.entries && 2 !in d.wavs;
    LaterMatches(d, x, p, q, c.wavs[1], blank);
    LaterHits(d, [x, blank, p, q]);
  }
}
