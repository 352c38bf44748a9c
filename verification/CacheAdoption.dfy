/**
 Runs from a directory whose `cache_meta.json` is lost or torn: audible WAVs without an entry are adopted as
 the words of the segments that have their indices. When every one says them, the run leaves a cache that
 the next edit can rely on.
 */
module CacheAdoption {
  import opened Text
  import opened SegmentCache
  import opened CacheTruth
  import opened CacheRuns
  import opened CacheHistory

  /** What the counting pass over the first `n` segments leaves at index `k`. */
  ghost predicate AdoptedAt(c: Cache, segs: seq<string>, n: nat, r: Cache, k: int) {
    && Lookup(r.wavs, k) == Lookup(c.wavs, k)
    && (if 0 <= k < n && Spoken(segs, k) && Audible(c, k) && k !in c.entries
        then Lookup(r.entries, k) == Some(Entry(segs[k], c.wavs[k].length, false))
        else Lookup(r.entries, k) == Lookup(c.entries, k))
  }

  ghost predicate Adopted(c: Cache, segs: seq<string>, n: nat, r: Cache) {
    ValidCache(r) && forall k :: AdoptedAt(c, segs, n, r, k)
  }

  /** The counting pass on any cache: it records every orphan of a spoken segment, and reports whether all hit. */
  lemma {:induction false} CountingAdopts(c: Cache, segs: seq<string>, n: nat)
    requires ValidCache(c) && n <= |segs|
    ensures var (r, all) := CheckAll(c, segs, n);
            && Adopted(c, segs, n, r)
            && (all <==> forall i :: 0 <= i < n && !Blank(segs[i]) ==> CheckCache(c, i, segs[i]).hit)
  {
    if n > 0 {
      CountingAdopts(c, segs, n - 1);
      AdoptOne(c, segs, n - 1, CheckAll(c, segs, n - 1).0);
    }
  }

  lemma AdoptOne(c: Cache, segs: seq<string>, n: nat, r: Cache)
    requires n < |segs| && Adopted(c, segs, n, r)
    ensures CheckCache(r, n, segs[n]).hit == CheckCache(c, n, segs[n]).hit
    ensures Adopted(c, segs, n + 1, if Blank(segs[n]) then r else CheckCache(r, n, segs[n]).cache)
  {
    assert AdoptedAt(c, segs, n, r, n);
    CheckAt(c, r, n, segs[n]);
    HitRecords(r, n, segs[n]);
    var after, done := if Blank(segs[n]) then r else CheckCache(r, n, segs[n]).cache, n + 1;
    forall k
      ensures AdoptedAt(c, segs, done, after, k)
    {
      assert AdoptedAt(c, segs, n, r, k);
    }
  }

  /** A directory without metadata: files only. */
  ghost predicate Unrecorded(c: Cache) {
    c.keys == [] && c.entries == map[]
  }

  /** The cache from which the generation loop starts. */
  lemma UnrecordedChecked(c: Cache, segs: seq<string>)
    requires Unrecorded(c)
    ensures ValidCache(c) && !Migrated(c, segs).raised
    ensures Adopted(c, segs, |segs|, Checked(c, segs).0)
    ensures Generates(c, segs) <==> exists i: nat :: Spoken(segs, i) && !Audible(c, i)
  {
    CountingAdopts(c, segs, |segs|);
    forall i: nat | Spoken(segs, i)
      ensures CheckCache(c, i, segs[i]).hit <==> Audible(c, i)
    {
      HitRecords(c, i, segs[i]);
    }
  }

  lemma UnrecordedLoop(c: Cache, segs: seq<string>, takes: seq<Take>)
    requires Unrecorded(c) && |takes| == |segs|
    ensures LoopInv(Checked(c, segs).0, segs, takes, |segs|, GeneratedTo(c, segs, takes, |segs|))
  {
    UnrecordedChecked(c, segs);
    var checked := Checked(c, segs).0;
    forall k
      ensures Spoken(segs, k) && Audible(checked, k) ==> k in checked.entries
      ensures k in checked.entries ==> checked.entries[k].content != ""
    {
      assert AdoptedAt(c, segs, |segs|, checked, k);
    }
    PassesKeepLoop(checked, segs, takes, |segs|);
  }

  /** The audible WAV at index `k`, if there is one, says the words of its segment or is overwritten. */
  ghost predicate AdoptsRight(c: Cache, segs: seq<string>, takes: seq<Take>, k: int)
    requires ValidCache(c) && |takes| == |segs|
  {
    Audible(c, k) ==>
      && 0 <= k < |segs|
      && (if Blank(segs[k]) then Generates(c, segs)
          else c.wavs[k].speech == Some(segs[k]) || (Generates(c, segs) && takes[k].nonVerbal))
  }

  lemma AdoptionTruthAt(c: Cache, segs: seq<string>, takes: seq<Take>, k: int)
    requires Unrecorded(c) && Honest(segs, takes)
    ensures TruthAt(AfterRun(c, segs, takes), k) <==> AdoptsRight(c, segs, takes, k)
    ensures k in AfterRun(c, segs, takes).entries ==> k in AfterRun(c, segs, takes).wavs
  {
    UnrecordedChecked(c, segs);
    var checked := Checked(c, segs).0;
    assert AdoptedAt(c, segs, |segs|, checked, k);
    if Spoken(segs, k) { HitRecords(checked, k, segs[k]); }
    if Generates(c, segs) {
      UnrecordedLoop(c, segs, takes);
      assert LoopAt(checked, segs, takes, |segs|, GeneratedTo(c, segs, takes, |segs|), k);
    }
  }

  /**
   A whole run from a directory without metadata leaves every entry with its WAV, and leaves a truthful cache
   exactly when every audible WAV that was there says the words of its segment or is overwritten.
   */
  lemma AdoptionTruthIff(c: Cache, segs: seq<string>, takes: seq<Take>)
    requires Unrecorded(c) && Honest(segs, takes)
    ensures var d := AfterRun(c, segs, takes);
            ValidCache(d) && Backed(d) && (Truthful(d) <==> forall k :: AdoptsRight(c, segs, takes, k))
  {
    UnrecordedChecked(c, segs);
    UnrecordedLoop(c, segs, takes);
    var d := AfterRun(c, segs, takes);
    forall k
      ensures TruthAt(d, k) <==> AdoptsRight(c, segs, takes, k)
      ensures k in d.entries ==> k in d.wavs
    {
      AdoptionTruthAt(c, segs, takes, k);
    }
  }

  /** Then a hit after the next edit plays the words of its segment, at the length it reports. */
  lemma NextEditRight(c: Cache, segs: seq<string>, takes: seq<Take>, next: seq<string>, i: nat)
    requires Unrecorded(c) && Honest(segs, takes) && forall k :: AdoptsRight(c, segs, takes, k)
    requires ValidCache(AfterRun(c, segs, takes)) && !Migrated(AfterRun(c, segs, takes), next).raised
    requires i < |next| && !Blank(next[i])
    ensures HitRight(Migrated(AfterRun(c, segs, takes), next).cache, next, i)
  {
    AdoptionTruthIff(c, segs, takes);
    HitPlaysTheSegment(AfterRun(c, segs, takes), next, i);
  }

  /** An adopted WAV is in the metadata from then on: the next edit moves it with its words, or deletes it. */
  lemma AdoptedIsRecorded(c: Cache, segs: seq<string>, takes: seq<Take>, i: nat)
    requires Unrecorded(c) && Honest(segs, takes) && Spoken(segs, i) && Audible(c, i) && !takes[i].nonVerbal
    ensures var d := AfterRun(c, segs, takes);
            i in d.wavs && d.wavs[i] == c.wavs[i] && Lookup(d.entries, i) == Some(Entry(segs[i], c.wavs[i].length, false))
  {
    UnrecordedChecked(c, segs);
    var checked := Checked(c, segs).0;
    assert AdoptedAt(c, segs, |segs|, checked, i);
    HitRecords(checked, i, segs[i]);
    if Generates(c, segs) {
      UnrecordedLoop(c, segs, takes);
      assert LoopAt(checked, segs, takes, |segs|, GeneratedTo(c, segs, takes, |segs|), i);
    }
  }
}
