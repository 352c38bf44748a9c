/**
 Whole runs over the segment cache: migrate, look every segment up, regenerate the misses.
 It is said exactly, for every cache and whatever files lie beside it, which lookups hit, what a hit plays,
 and when that is the segment's own words.
 */
module CacheRuns {
  import opened Text
  import opened SegmentCache
  import opened CacheTruth

  // ----- Lookup -----

  datatype Check = Check(hit: bool, duration: real, cache: Cache)

  /** `_check_cache`: a WAV without an entry is adopted, and silent or fallback audio never counts. */
  function CheckCache(c: Cache, i: int, text: string): Check {
    if i !in c.wavs then Check(false, 0.0, c)
    else if i in c.entries then
      if c.entries[i].fallback || c.entries[i].content != text || c.wavs[i].speech == None then Check(false, 0.0, c)
      else Check(true, c.entries[i].duration, c)
    else if c.wavs[i].speech == None then Check(false, 0.0, c)
    else Check(true, c.wavs[i].length, PutEntry(c, i, Entry(text, c.wavs[i].length, false)))
  }

  ghost predicate Audible(c: Cache, k: int) {
    k in c.wavs && c.wavs[k].speech.Some?
  }

  /** At index `k`: an audible WAV has an entry that tells its words and its length. */
  ghost predicate TruthAt(c: Cache, k: int) {
    && (k in c.entries ==> c.entries[k].content != "")
    && (Audible(c, k) ==>
          && k in c.entries && c.entries[k].content == c.wavs[k].speech.value
          && c.entries[k].duration == c.wavs[k].length)
  }

  ghost predicate Truthful(c: Cache) {
    ValidCache(c) && forall k :: TruthAt(c, k)
  }

  /** Entries `p` and `o` tell the same words and length. */
  ghost predicate Alike(c: Cache, p: int, o: int) {
    p in c.entries && o in c.entries
    && c.entries[p].content == c.entries[o].content && c.entries[p].duration == c.entries[o].duration
  }

  // ----- What a hit plays -----

  /** Segment `i` gets its match's entry, unflagged, and audible audio from somewhere. */
  ghost predicate Hits(c: Cache, segs: seq<string>, i: nat)
    requires ValidCache(c) && i < |segs|
  {
    && Match(c, segs, i).Some? && !Stale(c, segs, i) && !FallbackWritten(c, segs, i)
    && Origin(c, segs, |segs|, i).Some? && Audible(c, Origin(c, segs, |segs|, i).value)
  }

  /** The lookup of segment `i` misses, or plays its words at the length it reports. */
  ghost predicate HitRight(after: Cache, segs: seq<string>, i: nat)
    requires i < |segs|
  {
    var check := CheckCache(after, i, segs[i]);
    check.hit ==> i in after.wavs && after.wavs[i].speech == Some(segs[i]) && check.duration == after.wavs[i].length
  }

  /**
   Every lookup: it hits an audible WAV that has no entry, or an unflagged one with this content; a hit leaves
   the segment's entry with the duration it reports, and all else stays as it was.
   */
  lemma HitRecords(c: Cache, i: int, text: string)
    requires ValidCache(c)
    ensures var check := CheckCache(c, i, text);
            && (check.hit <==> Audible(c, i) && (i in c.entries ==> c.entries[i].content == text && !c.entries[i].fallback))
            && (check.hit ==> Lookup(check.cache.entries, i) == Some(Entry(text, check.duration, false)))
            && (check.hit ==> check.duration == if i in c.entries then c.entries[i].duration else c.wavs[i].length)
            && (!check.hit ==> check.cache == c && check.duration == 0.0)
            && check.cache.wavs == c.wavs && ValidCache(check.cache)
            && (forall k :: k != i ==> Lookup(check.cache.entries, k) == Lookup(c.entries, k))
            && check.cache.keys == if check.hit && i !in c.entries then c.keys + [i] else c.keys
  {
  }

  /** Index `i` after a migration that did not raise, in closed form. */
  lemma SpokenAfter(c: Cache, segs: seq<string>, i: nat)
    requires ValidCache(c) && c.keys != [] && !Migrated(c, segs).raised && i < |segs| && !Blank(segs[i])
    ensures var after := Migrated(c, segs).cache;
            && (i in after.entries <==> Match(c, segs, i).Some? && !Stale(c, segs, i))
            && (i in after.entries ==>
                  Match(c, segs, i).value in c.entries
                  && after.entries[i] == Entry(segs[i], c.entries[Match(c, segs, i).value].duration,
                                               FallbackWritten(c, segs, i)))
            && (i in after.wavs <==> i in after.entries && Origin(c, segs, |segs|, i).Some?)
            && (i in after.wavs ==>
                  Origin(c, segs, |segs|, i).value in c.wavs
                  && after.wavs[i] == c.wavs[Origin(c, segs, |segs|, i).value])
  {
    FinalState(c, segs);
    OriginIsOnDisk(c, segs, |segs|, i);
    var after := Migrated(c, segs).cache;
    assert Lookup(after.wavs, i) == (if Stale(c, segs, i) then None else WavAfter(c, segs, |segs|, i));
    assert Lookup(after.entries, i) == (if Stale(c, segs, i) then None else EntryAfter(c, segs, |segs|, i));
    if Match(c, segs, i).Some? {
      MatchOwnsItsContent(c, segs, i);
    }
  }

  /** Whatever lay on disk: which lookups hit after a migration, and what they play. */
  lemma HitIff(c: Cache, segs: seq<string>, i: nat)
    requires ValidCache(c) && c.keys != [] && !Migrated(c, segs).raised && i < |segs| && !Blank(segs[i])
    ensures var after := Migrated(c, segs).cache;
            var check := CheckCache(after, i, segs[i]);
            && (check.hit <==> Hits(c, segs, i))
            && (check.hit ==>
                  && i in after.wavs && Origin(c, segs, |segs|, i).value in c.wavs
                  && after.wavs[i] == c.wavs[Origin(c, segs, |segs|, i).value]
                  && Match(c, segs, i).value in c.entries
                  && check.duration == c.entries[Match(c, segs, i).value].duration
                  && check.cache == after)
  {
    SpokenAfter(c, segs, i);
  }

  /** Without metadata every audible WAV hits as whatever segment has its index. */
  lemma HitWithoutMetadata(c: Cache, segs: seq<string>, i: nat)
    requires ValidCache(c) && c.keys == [] && i < |segs|
    ensures !Migrated(c, segs).raised && Migrated(c, segs).cache == c
    ensures CheckCache(c, i, segs[i]).hit <==> Audible(c, i)
    ensures HitRight(c, segs, i) <==> (Audible(c, i) ==> c.wavs[i].speech == Some(segs[i]))
  {
    assert i !in c.entries;
  }

  /**
   When every audible WAV is described by its entry, a hit is right exactly when the entry of the index
   its audio came from is like the entry it was matched to.
   */
  lemma HitRightIff(c: Cache, segs: seq<string>, i: nat)
    requires Truthful(c) && !Migrated(c, segs).raised && i < |segs| && !Blank(segs[i])
    ensures HitRight(Migrated(c, segs).cache, segs, i)
       <==> (Hits(c, segs, i) ==> Alike(c, Origin(c, segs, |segs|, i).value, Match(c, segs, i).value))
  {
    if c.keys == [] {
      NothingMatchesNothing(c, segs, i);
      assert TruthAt(c, i) && i !in c.entries;
    } else {
      HitIff(c, segs, i);
      if Hits(c, segs, i) {
        MatchOwnsItsContent(c, segs, i);
        assert TruthAt(c, Origin(c, segs, |segs|, i).value);
      }
    }
  }

  /** Old audio that stays at an index whose entry is asked for goes to the segment that asks. */
  lemma HeldIsTaken(c: Cache, segs: seq<string>, i: nat)
    requires ValidCache(c) && i < |segs| && Held(c, segs, i) && Matched(c, segs, i) && Match(c, segs, i) != Some(i)
    ensures LaterTaken(c, segs, i, |segs|)
  {
    var j: nat :| j < |segs| && Match(c, segs, j) == Some(i);
    assert j > i;
  }

  /** With every entry backed by its WAV, audio that hits comes from the matched entry itself. */
  lemma BackedOrigin(c: Cache, segs: seq<string>, i: nat)
    requires Truthful(c) && Backed(c) && i < |segs| && Match(c, segs, i).Some? && !Stale(c, segs, i)
    requires Origin(c, segs, |segs|, i).Some? && Audible(c, Origin(c, segs, |segs|, i).value)
    ensures Origin(c, segs, |segs|, i) == Match(c, segs, i)
  {
    var o := Match(c, segs, i).value;
    if o != i {
      if Held(c, segs, i) {
        assert TruthAt(c, i) && !Stale(c, segs, i);
        HeldIsTaken(c, segs, i);
      } else {
        BackedSource(c, segs, i);
      }
    }
  }

  /** After a migration of a backed cache, a hit plays the words of its segment, from its match, at its length. */
  lemma HitPlaysTheSegment(c: Cache, segs: seq<string>, i: nat)
    requires Truthful(c) && Backed(c) && i < |segs| && !Blank(segs[i])
    requires !Migrated(c, segs).raised
    ensures var after := Migrated(c, segs).cache;
            var check := CheckCache(after, i, segs[i]);
            check.hit ==>
              && i in after.wavs && after.wavs[i].speech == Some(segs[i])
              && check.duration == after.wavs[i].length
              && check.cache == after
              && Match(c, segs, i).Some?
              && Lookup(c.wavs, Match(c, segs, i).value) == Some(after.wavs[i])
  {
    HitRightIff(c, segs, i);
    if c.keys == [] {
      assert TruthAt(c, i) && i !in c.entries;
    } else {
      HitIff(c, segs, i);
      if Hits(c, segs, i) {
        BackedOrigin(c, segs, i);
        MatchOwnsItsContent(c, segs, i);
      }
    }
  }

  // ----- The pairing of given segments -----

  lemma {:induction false} NotAskedBefore(segs: seq<string>, n: nat, text: string)
    requires n <= |segs| && forall j :: 0 <= j < n ==> segs[j] != text
    ensures Asked(segs, n, text) == 0
  {
    if n > 0 { NotAskedBefore(segs, n - 1, text); }
  }

  /** Content that one entry has and no earlier segment asks for is matched to that entry. */
  lemma MatchUnique(c: Cache, segs: seq<string>, i: nat, k: int)
    requires ValidCache(c) && i < |segs| && !Blank(segs[i]) && k in c.entries && c.entries[k].content == segs[i]
    requires forall j :: 0 <= j < i ==> segs[j] != segs[i]
    requires forall o :: o in c.entries && c.entries[o].content == segs[i] ==> o == k
    ensures Match(c, segs, i) == Some(k)
  {
    assert k in c.keys;
    KeysWithComplete(c.keys, c.entries, k);
    NotAskedBefore(segs, i, segs[i]);
    var ks := KeysWith(c.keys, c.entries, segs[i]);
    assert k in ks && ks[0] in ks;
    assert ks[0] in c.keys;
    assert ks[0] in c.entries;
    assert c.entries[ks[0]].content == segs[i];
    assert ks[0] == k;
  }

  lemma MatchNobody(c: Cache, segs: seq<string>, i: nat)
    requires ValidCache(c) && i < |segs|
    requires forall o :: o in c.entries ==> c.entries[o].content != segs[i]
    ensures Match(c, segs, i) == None
  {
    if Match(c, segs, i).Some? {
      MatchOwnsItsContent(c, segs, i);
    }
  }

  // ----- When a migration raises -----

  /** A cache of exactly these cues, all different and spoken, each with its WAV and no other file. */
  ghost predicate CachesExactly(c: Cache, cues: seq<string>) {
    && ValidCache(c)
    && (forall k :: k in c.entries <==> 0 <= k < |cues|) && (forall k :: k in c.wavs <==> 0 <= k < |cues|)
    && (forall k :: 0 <= k < |cues| ==> c.entries[k].content == cues[k] && !Blank(cues[k]))
    && (forall j, k :: 0 <= j < k < |cues| ==> cues[j] != cues[k])
  }

  lemma FrontInsertionMatches(c: Cache, cues: seq<string>, cue: string, i: nat)
    requires CachesExactly(c, cues) && cue !in cues && i <= |cues|
    ensures Match(c, [cue] + cues, i) == if i == 0 then None else Some(i - 1)
  {
    var segs := [cue] + cues;
    if i == 0 {
      forall o | o in c.entries
        ensures c.entries[o].content != segs[0]
      {
        assert cues[o] in cues;
      }
      MatchNobody(c, segs, 0);
    } else {
      assert segs[i] == cues[i - 1] && segs[i] in cues;
      forall j | 0 <= j < i
        ensures segs[j] != segs[i]
      {
        assert j > 0 ==> segs[j] == cues[j - 1];
      }
      MatchUnique(c, segs, i, i - 1);
    }
  }

  /** Inserting a new spoken cue in front of different cached cues raises exactly when there are two or more. */
  lemma FrontInsertionRaises(c: Cache, cues: seq<string>, cue: string)
    requires CachesExactly(c, cues) && !Blank(cue) && cue !in cues
    ensures Migrated(c, [cue] + cues).raised <==> |cues| >= 2
  {
    var segs := [cue] + cues;
    FinalState(c, segs);
    if |cues| >= 2 {
      FrontInsertionMatches(c, cues, cue, 0);
      FrontInsertionMatches(c, cues, cue, 1);
      BackedRaisesIff(c, segs, 1);
      assert RaisesAt(c, segs, 1);
    } else {
      forall i: nat | i < |segs|
        ensures !RaisesAt(c, segs, i)
      {
        FrontInsertionMatches(c, cues, cue, i);
        BackedRaisesIff(c, segs, i);
      }
    }
  }

  // ----- The fallback flag -----

  /** Where the flag written for segment `i` comes from: the old index, or what an earlier segment put there. */
  ghost function FlagSource(c: Cache, segs: seq<string>, i: nat): Option<int>
    requires ValidCache(c) && i < |segs| && Match(c, segs, i).Some?
  {
    var o := Match(c, segs, i).value;
    if 0 <= o < i && !Blank(segs[o]) then
      if Match(c, segs, o).Some? then FlagSource(c, segs, o) else None
    else Some(o)
  }

  lemma {:induction false} FlagFromSource(c: Cache, segs: seq<string>, i: nat)
    requires ValidCache(c) && i < |segs| && Match(c, segs, i).Some?
    ensures var s := FlagSource(c, segs, i);
            && (s.Some? ==> s.value in c.entries)
            && FallbackWritten(c, segs, i) == (s.Some? && c.entries[s.value].fallback)
  {
    var o := Match(c, segs, i).value;
    MatchOwnsItsContent(c, segs, i);
    if 0 <= o < i && !Blank(segs[o]) && Match(c, segs, o).Some? {
      FlagFromSource(c, segs, o);
    }
  }

  /**
   The flag that marks stand-in silence stays with a segment exactly when the entry at the end of the chain
   of matches, followed while the old index is smaller and spoken, has the flag of the segment's own match;
   a chain that ends at an unmatched segment counts as unflagged.
   */
  lemma FlagKeptIff(c: Cache, segs: seq<string>, i: nat)
    requires ValidCache(c) && i < |segs| && !Blank(segs[i]) && !Migrated(c, segs).raised
    requires Match(c, segs, i).Some? && i in Migrated(c, segs).cache.entries
    ensures var o, s := Match(c, segs, i).value, FlagSource(c, segs, i);
            && o in c.entries && (s.Some? ==> s.value in c.entries)
            && (Migrated(c, segs).cache.entries[i].fallback == c.entries[o].fallback
                <==> c.entries[o].fallback == (s.Some? && c.entries[s.value].fallback))
  {
    MatchOwnsItsContent(c, segs, i);
    assert c.keys != [];
    SpokenAfter(c, segs, i);
    FlagFromSource(c, segs, i);
  }

  /** The flag follows the audio when the old index has not been rewritten before it is read. */
  lemma FallbackKept(c: Cache, segs: seq<string>, i: nat)
    requires ValidCache(c) && i < |segs| && !Blank(segs[i]) && !Migrated(c, segs).raised
    requires Match(c, segs, i).Some? && i in Migrated(c, segs).cache.entries
    requires var o := Match(c, segs, i).value; o >= i || (0 <= o && Blank(segs[o])) || o < 0
    ensures var o := Match(c, segs, i).value;
            o in c.entries && Migrated(c, segs).cache.entries[i].fallback == c.entries[o].fallback
  {
    FlagKeptIff(c, segs, i);
    assert FlagSource(c, segs, i) == Match(c, segs, i);
  }

  /** Swapping two cached cues gives each the flag of the one that is now first. */
  lemma FallbackLost(c: Cache, a: string, b: string)
    requires CachesExactly(c, [a, b]) && c.entries[0].fallback && !c.entries[1].fallback
    ensures !Migrated(c, [b, a]).raised && Match(c, [b, a], 1) == Some(0)
    ensures var after := Migrated(c, [b, a]).cache; 1 in after.entries && !after.entries[1].fallback
  {
    var segs := [b, a];
    assert [a, b][0] == a && [a, b][1] == b;
    MatchUnique(c, segs, 0, 1);
    MatchUnique(c, segs, 1, 0);
    FinalState(c, segs);
    BackedRaisesIff(c, segs, 0);
    BackedRaisesIff(c, segs, 1);
    assert 0 in c.keys;
    SpokenAfter(c, segs, 1);
    FlagKeptIff(c, segs, 1);
    assert FlagSource(c, segs, 0) == Some(1);
  }
}
