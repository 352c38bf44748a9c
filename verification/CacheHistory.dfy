/**
 Histories of runs over the segment cache: `cache_meta.json` and the WAV files on disk, the dictionary in
 memory, whole runs, and runs that end in a raise or a crash. A run leaves the disk truthful exactly when
 a condition on its pairing and its takes holds, and from a truthful disk the next hits are right.
 */
module CacheHistory {
  import opened Text
  import opened SegmentCache
  import opened CacheTruth
  import opened CacheRuns

  // ----- The generation loop -----

  /**
   What synthesis does for one segment: text without a letter becomes silence of the cue's length,
   other text becomes `wav` (flagged when it is stand-in silence).
   */
  datatype Take = Take(nonVerbal: bool, cueLength: real, wav: Wav, fallback: bool)

  /** Synthesis says the segment's words or nothing. */
  ghost predicate Honest(segs: seq<string>, takes: seq<Take>) {
    && |takes| == |segs|
    && forall i :: 0 <= i < |segs| ==> takes[i].wav.speech == None || takes[i].wav.speech == Some(segs[i])
  }

  /** A run under way: the dictionary in memory with the files, and the dictionary last saved. */
  datatype Run = Run(memory: Cache, saved: Meta)

  /** What the next run would load. */
  function OnDisk(r: Run): Cache {
    Cache(r.saved.keys, r.saved.entries, r.memory.wavs)
  }

  function SaveWav(c: Cache, i: int, wav: Wav): Cache {
    c.(wavs := c.wavs[i := wav])
  }

  /** One pass over segment `i` in memory. */
  function PassMemory(c: Cache, i: int, text: string, take: Take): Cache {
    if Blank(text) then PopEntry(SaveWav(c, i, Wav(None, take.cueLength)), i)
    else if take.nonVerbal then
      PutEntry(SaveWav(c, i, Wav(None, take.cueLength)), i, Entry(text, take.cueLength, false))
    else
      var check := CheckCache(c, i, text);
      if check.hit then check.cache
      else PutEntry(SaveWav(c, i, take.wav), i, Entry(text, take.wav.length, take.fallback))
  }

  /** Popping the entry of a blank segment and a plain hit are not saved at once; everything else is. */
  predicate SavesAtOnce(c: Cache, i: int, text: string, take: Take) {
    !Blank(text) && (take.nonVerbal || !CheckCache(c, i, text).hit || i !in c.entries)
  }

  /** One pass of the generation loop of `process_with_direct`. */
  function Pass(r: Run, i: int, text: string, take: Take): Run {
    var memory := PassMemory(r.memory, i, text, take);
    Run(memory, if SavesAtOnce(r.memory, i, text, take) then MetaOf(memory) else r.saved)
  }

  function Passes(c: Cache, segs: seq<string>, takes: seq<Take>, n: nat): Run
    requires n <= |segs| == |takes|
  {
    if n == 0 then Run(c, MetaOf(c)) else Pass(Passes(c, segs, takes, n - 1), n - 1, segs[n - 1], takes[n - 1])
  }

  /** The counting pass before the loop: the cache with adopted WAVs, and whether every segment hit. */
  function CheckAll(c: Cache, segs: seq<string>, n: nat): (Cache, bool)
    requires n <= |segs|
  {
    if n == 0 then (c, true)
    else
      var (before, all) := CheckAll(c, segs, n - 1);
      if Blank(segs[n - 1]) then (before, all)
      else
        var check := CheckCache(before, n - 1, segs[n - 1]);
        (check.cache, all && check.hit)
  }

  // ----- How runs end -----

  /**
   Where a run stops short: in the matching loop after `n` segments, which a raise also is; in the sweep with
   some stale files removed; in the generation loop after `n` passes; with one more WAV written and its entry
   not yet saved; or in the middle of a save, which then loads as empty.
   */
  datatype Stop =
    | Moving(n: nat)
    | Sweeping(gone: set<int>)
    | Generating(n: nat)
    | WrittenUnsaved(n: nat)
    | Torn(n: nat)

  datatype Ending = Whole | Short(stop: Stop)

  datatype Edit = Edit(segs: seq<string>, takes: seq<Take>, ending: Ending)

  /** The disk when the matching loop stops after `n` segments. */
  ghost function Moved(c: Cache, segs: seq<string>, n: nat): (d: Cache)
    requires ValidCache(c) && n <= |segs|
    ensures ValidCache(d) && MetaOf(d) == MetaOf(c)
  {
    if c.keys == [] then c else c.(wavs := MatchSegments(Start(c), segs, n).cache.wavs)
  }

  /** The cache that the generation loop starts from, and whether it is entered at all. */
  ghost function Checked(c: Cache, segs: seq<string>): (Cache, bool)
    requires ValidCache(c)
  {
    CheckAll(Migrated(c, segs).cache, segs, |segs|)
  }

  ghost predicate Generates(c: Cache, segs: seq<string>)
    requires ValidCache(c)
  {
    !Checked(c, segs).1
  }

  ghost function GeneratedTo(c: Cache, segs: seq<string>, takes: seq<Take>, n: nat): Run
    requires ValidCache(c) && n <= |segs| == |takes|
  {
    Passes(Checked(c, segs).0, segs, takes, n)
  }

  /** The WAV that pass `n` writes, if it writes one. */
  function WrittenWav(c: Cache, n: nat, text: string, take: Take): Option<Wav> {
    if Blank(text) || take.nonVerbal then Some(Wav(None, take.cueLength))
    else if CheckCache(c, n, text).hit then None
    else Some(take.wav)
  }

  ghost predicate CanStop(c: Cache, segs: seq<string>, takes: seq<Take>, stop: Stop)
    requires ValidCache(c) && |segs| == |takes|
  {
    match stop
    case Moving(n) => n <= |segs| && QuietBefore(c, segs, n)
    case Sweeping(gone) =>
      c.keys != [] && QuietBefore(c, segs, |segs|) && forall k :: k in gone ==> Stale(c, segs, k)
    case Generating(n) => n <= |segs| && !Migrated(c, segs).raised && Generates(c, segs)
    case WrittenUnsaved(n) =>
      n < |segs| && !Migrated(c, segs).raised && Generates(c, segs)
      && WrittenWav(GeneratedTo(c, segs, takes, n).memory, n, segs[n], takes[n]).Some?
    case Torn(n) => n <= |segs| && !Migrated(c, segs).raised && (n > 0 ==> Generates(c, segs))
  }

  ghost predicate CanEnd(c: Cache, e: Edit)
    requires ValidCache(c)
  {
    Honest(e.segs, e.takes)
    && match e.ending
       case Whole => !Migrated(c, e.segs).raised
       case Short(stop) => CanStop(c, e.segs, e.takes, stop)
  }

  /** The disk after a run that goes to its end; both of its paths save there. */
  ghost function AfterRun(c: Cache, segs: seq<string>, takes: seq<Take>): Cache
    requires ValidCache(c) && |takes| == |segs|
  {
    if Generates(c, segs) then GeneratedTo(c, segs, takes, |segs|).memory else Checked(c, segs).0
  }

  /** The disk after a run that stops short. */
  ghost function AfterStop(c: Cache, segs: seq<string>, takes: seq<Take>, stop: Stop): Cache
    requires ValidCache(c) && |segs| == |takes| && CanStop(c, segs, takes, stop)
  {
    match stop
    case Moving(n) => Moved(c, segs, n)
    case Sweeping(gone) => var m := Moved(c, segs, |segs|); m.(wavs := m.wavs - gone)
    case Generating(n) => OnDisk(GeneratedTo(c, segs, takes, n))
    case WrittenUnsaved(n) =>
      var r := GeneratedTo(c, segs, takes, n);
      SaveWav(OnDisk(r), n, WrittenWav(r.memory, n, segs[n], takes[n]).value)
    case Torn(n) => Cache([], map[], GeneratedTo(c, segs, takes, n).memory.wavs)
  }

  ghost function After(c: Cache, e: Edit): Cache
    requires ValidCache(c) && CanEnd(c, e)
  {
    match e.ending
    case Whole => AfterRun(c, e.segs, e.takes)
    case Short(stop) => AfterStop(c, e.segs, e.takes, stop)
  }

  // ----- The exact conditions -----

  /** No audible WAV has moved to an index whose old entry tells something else. */
  ghost predicate MovesKeepTruth(c: Cache, segs: seq<string>, n: nat, gone: set<int>)
    requires ValidCache(c) && n <= |segs|
  {
    forall k :: k !in gone ==>
      var p := Origin(c, segs, n, k);
      p.Some? && p.value != k && Audible(c, p.value) ==> Alike(c, p.value, k)
  }

  /** Audible audio that reaches segment `i` comes from an entry like its match. */
  ghost predicate ArrivalRight(c: Cache, segs: seq<string>, i: nat)
    requires ValidCache(c) && i < |segs|
  {
    var p := Origin(c, segs, |segs|, i);
    Match(c, segs, i).Some? && !Stale(c, segs, i) && p.Some? && Audible(c, p.value)
    ==> Alike(c, p.value, Match(c, segs, i).value)
  }

  /** The same where the lookup hits. */
  ghost predicate LookupRight(c: Cache, segs: seq<string>, i: nat)
    requires ValidCache(c) && i < |segs|
  {
    Hits(c, segs, i) ==> Alike(c, Origin(c, segs, |segs|, i).value, Match(c, segs, i).value)
  }

  /** Index `k` once `n` passes are done: looked up or overwritten before `n`, as the migration left it after. */
  ghost predicate RightAt(c: Cache, segs: seq<string>, takes: seq<Take>, n: nat, k: int)
    requires ValidCache(c) && |segs| == |takes|
  {
    0 <= k < |segs| && !Blank(segs[k]) ==>
      if k < n then takes[k].nonVerbal || LookupRight(c, segs, k) else ArrivalRight(c, segs, k)
  }

  /** The entry that pass `n` is about to replace already tells the new WAV, or that is silent. */
  ghost predicate WriteRight(c: Cache, segs: seq<string>, takes: seq<Take>, n: nat)
    requires ValidCache(c) && n < |segs| == |takes|
  {
    !Blank(segs[n]) && !takes[n].nonVerbal && takes[n].wav.speech.Some? ==>
      Match(c, segs, n).Some? && !Stale(c, segs, n)
      && Match(c, segs, n).value in c.entries && c.entries[Match(c, segs, n).value].duration == takes[n].wav.length
  }

  /** When a run that stops short leaves a truthful disk. */
  ghost predicate StopKeepsTruth(c: Cache, segs: seq<string>, takes: seq<Take>, stop: Stop)
    requires ValidCache(c) && |segs| == |takes| && CanStop(c, segs, takes, stop)
  {
    match stop
    case Moving(n) => MovesKeepTruth(c, segs, n, {})
    case Sweeping(gone) => MovesKeepTruth(c, segs, |segs|, gone)
    case Generating(n) => forall k :: RightAt(c, segs, takes, n, k)
    case WrittenUnsaved(n) =>
      WriteRight(c, segs, takes, n) && forall k :: k != n ==> RightAt(c, segs, takes, n, k)
    case Torn(n) => forall k :: !Audible(GeneratedTo(c, segs, takes, n).memory, k)
  }

  /** When a run leaves a truthful disk: for a whole one, when every lookup that counts is right. */
  ghost predicate KeepsTruth(c: Cache, e: Edit)
    requires ValidCache(c) && CanEnd(c, e)
  {
    match e.ending
    case Whole =>
      forall i :: 0 <= i < |e.segs| && !Blank(e.segs[i]) ==>
        (Generates(c, e.segs) && e.takes[i].nonVerbal) || LookupRight(c, e.segs, i)
    case Short(stop) => StopKeepsTruth(c, e.segs, e.takes, stop)
  }

  // ----- Stops in the migration -----

  lemma MovedIs(c: Cache, segs: seq<string>, n: nat, k: int)
    requires ValidCache(c) && c.keys != [] && n <= |segs| && QuietBefore(c, segs, n)
    ensures ValidCache(Moved(c, segs, n)) && Moved(c, segs, n).entries == c.entries
    ensures Lookup(Moved(c, segs, n).wavs, k) == WavAfter(c, segs, n, k)
  {
    StateInv(c, segs, n);
  }

  /** A raise is a stop in the matching loop: nothing is saved, and the files stay where they are by then. */
  lemma RaiseIsStop(c: Cache, segs: seq<string>, takes: seq<Take>) returns (r: nat)
    requires ValidCache(c) && |segs| == |takes| && Migrated(c, segs).raised
    ensures FirstRaise(c, segs, r) && CanStop(c, segs, takes, Moving(r))
    ensures AfterStop(c, segs, takes, Moving(r)) == c.(wavs := Migrated(c, segs).cache.wavs)
  {
    FinalState(c, segs);
    r :| FirstRaise(c, segs, r) && LeavesWavs(c, segs, r, Migrated(c, segs));
    var w, v := Moved(c, segs, r).wavs, Migrated(c, segs).cache.wavs;
    forall k
      ensures Lookup(w, k) == Lookup(v, k)
    {
      MovedIs(c, segs, r, k);
    }
    SameLookups(w, v);
  }

  lemma SameLookups(w: map<int, Wav>, v: map<int, Wav>)
    requires forall k :: Lookup(w, k) == Lookup(v, k)
    ensures w == v
  {
    forall k
      ensures k in w <==> k in v
      ensures k in w ==> w[k] == v[k]
    {
      assert Lookup(w, k) == Lookup(v, k);
    }
  }

  ghost predicate MoveRight(c: Cache, segs: seq<string>, n: nat, k: int)
    requires ValidCache(c) && n <= |segs|
  {
    var p := Origin(c, segs, n, k);
    p.Some? && p.value != k && Audible(c, p.value) ==> Alike(c, p.value, k)
  }

  lemma MovedTruthAt(c: Cache, segs: seq<string>, n: nat, d: Cache, k: int)
    requires Truthful(c) && n <= |segs|
    requires d.entries == c.entries && Lookup(d.wavs, k) == WavAfter(c, segs, n, k)
    ensures TruthAt(d, k) <==> MoveRight(c, segs, n, k)
  {
    OriginIsOnDisk(c, segs, n, k);
    assert TruthAt(c, k);
    if Origin(c, segs, n, k).Some? {
      assert TruthAt(c, Origin(c, segs, n, k).value);
    }
  }

  lemma MovedTruthIff(c: Cache, segs: seq<string>, n: nat, gone: set<int>)
    requires Truthful(c) && n <= |segs| && QuietBefore(c, segs, n) && (c.keys == [] ==> gone == {})
    ensures var m := Moved(c, segs, n);
            Truthful(m.(wavs := m.wavs - gone)) <==> MovesKeepTruth(c, segs, n, gone)
  {
    var m := Moved(c, segs, n);
    var d := m.(wavs := m.wavs - gone);
    if c.keys == [] {
      assert d == c;
      forall k
        ensures MoveRight(c, segs, n, k)
      {
        NothingMoves(c, segs, n, k);
      }
      MovesAllRight(c, segs, n, gone);
    } else {
      forall k
        ensures TruthAt(d, k) <==> k in gone || MoveRight(c, segs, n, k)
        ensures ValidCache(d)
      {
        MovedIs(c, segs, n, k);
        if k in gone {
          assert TruthAt(c, k) && !Audible(d, k);
        } else {
          MovedTruthAt(c, segs, n, d, k);
        }
      }
      MovesAllRight(c, segs, n, gone);
      assert ValidCache(d) by { MovedIs(c, segs, n, 0); }
    }
  }

  lemma MovesAllRight(c: Cache, segs: seq<string>, n: nat, gone: set<int>)
    requires ValidCache(c) && n <= |segs|
    ensures MovesKeepTruth(c, segs, n, gone) <==> forall k :: k in gone || MoveRight(c, segs, n, k)
  {
  }

  lemma NothingMoves(c: Cache, segs: seq<string>, n: nat, k: int)
    requires ValidCache(c) && c.keys == [] && n <= |segs|
    ensures Origin(c, segs, n, k) == None || Origin(c, segs, n, k) == Some(k)
  {
    if 0 <= k < n { NothingMatchesNothing(c, segs, k); }
  }

  /**
   The next run after a raise or a crash in the migration: a hit is right exactly when its audio, followed
   back through both runs, came from an entry like the one that the next run matched.
   */
  lemma NextRunRightIff(c: Cache, segs: seq<string>, n: nat, next: seq<string>, i: nat)
    requires Truthful(c) && c.keys != [] && n <= |segs| && QuietBefore(c, segs, n)
    requires !Migrated(Moved(c, segs, n), next).raised && i < |next| && !Blank(next[i])
    requires Hits(Moved(c, segs, n), next, i)
    ensures var d := Moved(c, segs, n);
            var p := Origin(d, next, |next|, i).value;
            Origin(c, segs, n, p).Some?
            && (HitRight(Migrated(d, next).cache, next, i)
                <==> Alike(c, Origin(c, segs, n, p).value, Match(d, next, i).value))
  {
    var d := Moved(c, segs, n);
    var p := Origin(d, next, |next|, i).value;
    HitIff(d, next, i);
    MovedIs(c, segs, n, p);
    OriginIsOnDisk(c, segs, n, p);
    MatchOwnsItsContent(d, next, i);
    assert TruthAt(c, Origin(c, segs, n, p).value);
  }

  // ----- What a migration leaves for the loop -----

  lemma {:induction false} MatchSegmentsValid(m: Migration, segs: seq<string>, n: nat)
    requires n <= |segs| && ValidCache(m.cache)
    requires forall t :: t in m.waiting ==> m.waiting[t] != []
    ensures ValidCache(MatchSegments(m, segs, n).cache)
  {
    if n > 0 {
      MatchSegmentsValid(m, segs, n - 1);
      MatchSegmentValid(MatchSegments(m, segs, n - 1), n - 1, segs[n - 1]);
    }
  }

  lemma MigratedValid(c: Cache, segs: seq<string>)
    requires ValidCache(c)
    ensures ValidCache(Migrated(c, segs).cache)
  {
    if c.keys != [] {
      MatchSegmentsValid(Start(c), segs, |segs|);
      var m := MatchSegments(Start(c), segs, |segs|);
      SweepValid(m.cache, Unmatched(m.waiting));
    }
  }

  ghost predicate Spoken(segs: seq<string>, k: int) {
    0 <= k < |segs| && !Blank(segs[k])
  }

  /** At an index without a spoken segment, a migration keeps an entry exactly when its audio moved away. */
  lemma LeftBehind(c: Cache, segs: seq<string>, k: int)
    requires Truthful(c) && !Migrated(c, segs).raised && !Spoken(segs, k)
    ensures var after := Migrated(c, segs).cache;
            && (k in after.entries <==> Taken(c, segs, k, |segs|))
            && (k in after.entries ==> after.entries[k].content != "" && k !in after.wavs)
            && (k in after.wavs ==> after.wavs[k].speech == None)
  {
    FinalState(c, segs);
    assert TruthAt(c, k);
    if Taken(c, segs, k, |segs|) {
      var j: nat :| j < |segs| && j != k && Match(c, segs, j) == Some(k);
      MatchOwnsItsContent(c, segs, j);
      assert k in c.keys && Matched(c, segs, k);
    }
    if c.keys != [] {
      var after := Migrated(c, segs).cache;
      assert Lookup(after.wavs, k) == (if Stale(c, segs, k) then None else WavAfter(c, segs, |segs|, k));
      assert Lookup(after.entries, k) == (if Stale(c, segs, k) then None else EntryAfter(c, segs, |segs|, k));
      if Matched(c, segs, k) {
        var j: nat :| j < |segs| && Match(c, segs, j) == Some(k);
        assert j != k;
      }
    }
  }

  /** The truth of every index after a migration from a truthful disk. */
  lemma MigratedTruthAt(c: Cache, segs: seq<string>, k: int)
    requires Truthful(c) && !Migrated(c, segs).raised
    ensures TruthAt(Migrated(c, segs).cache, k) <==> (Spoken(segs, k) ==> ArrivalRight(c, segs, k))
    ensures Audible(Migrated(c, segs).cache, k) ==> k in Migrated(c, segs).cache.entries
  {
    if !Spoken(segs, k) {
      LeftBehind(c, segs, k);
    } else if c.keys == [] {
      NothingMatchesNothing(c, segs, k);
      assert TruthAt(c, k);
    } else {
      SpokenAfter(c, segs, k);
      OriginIsOnDisk(c, segs, |segs|, k);
      if Match(c, segs, k).Some? {
        MatchOwnsItsContent(c, segs, k);
      }
      if Origin(c, segs, |segs|, k).Some? {
        assert TruthAt(c, Origin(c, segs, |segs|, k).value);
      }
    }
  }

  /** A hit of the counting pass is a hit in closed form. */
  lemma MigratedHit(c: Cache, segs: seq<string>, k: nat)
    requires Truthful(c) && !Migrated(c, segs).raised && Spoken(segs, k)
    ensures CheckCache(Migrated(c, segs).cache, k, segs[k]).hit <==> Hits(c, segs, k)
  {
    if c.keys == [] {
      NothingMatchesNothing(c, segs, k);
      assert TruthAt(c, k) && k !in c.entries;
    } else {
      HitIff(c, segs, k);
    }
  }

  /** No audible WAV of a spoken segment lies without an entry, so no lookup adopts one. */
  ghost predicate NoOrphans(c: Cache, segs: seq<string>) {
    forall k :: Spoken(segs, k) && Audible(c, k) ==> k in c.entries
  }

  lemma {:induction false} CheckAllReads(c: Cache, segs: seq<string>, n: nat)
    requires NoOrphans(c, segs) && n <= |segs|
    ensures CheckAll(c, segs, n).0 == c
    ensures CheckAll(c, segs, n).1 <==> forall i :: 0 <= i < n && !Blank(segs[i]) ==> CheckCache(c, i, segs[i]).hit
  {
    if n > 0 {
      CheckAllReads(c, segs, n - 1);
      assert Spoken(segs, n - 1) && Audible(c, n - 1) ==> n - 1 in c.entries;
    }
  }

  lemma MigratedHasNoOrphans(c: Cache, segs: seq<string>)
    requires Truthful(c) && !Migrated(c, segs).raised
    ensures NoOrphans(Migrated(c, segs).cache, segs) && Checked(c, segs).0 == Migrated(c, segs).cache
    ensures Generates(c, segs) <==> exists i: nat :: Spoken(segs, i) && !Hits(c, segs, i)
  {
    var after := Migrated(c, segs).cache;
    forall k
      ensures Audible(after, k) ==> k in after.entries
    {
      MigratedTruthAt(c, segs, k);
    }
    CheckAllReads(after, segs, |segs|);
    forall i: nat | Spoken(segs, i)
      ensures CheckCache(after, i, segs[i]).hit <==> Hits(c, segs, i)
    {
      MigratedHit(c, segs, i);
    }
  }

  // ----- One index through the generation loop -----

  ghost predicate SameAt(c: Cache, r: Cache, k: int) {
    Lookup(r.wavs, k) == Lookup(c.wavs, k) && Lookup(r.entries, k) == Lookup(c.entries, k)
  }

  ghost predicate SilentAt(c: Cache, k: int) {
    k in c.wavs && c.wavs[k].speech == None
  }

  /** What pass `k` leaves at its own index. */
  ghost predicate PassedAt(c: Cache, segs: seq<string>, takes: seq<Take>, r: Run, k: int)
    requires |segs| == |takes| && 0 <= k < |segs|
  {
    if Blank(segs[k]) then
      SilentAt(r.memory, k) && k !in r.memory.entries && (k in r.saved.entries ==> r.saved.entries[k].content != "")
    else
      && Lookup(r.saved.entries, k) == Lookup(r.memory.entries, k)
      && (if takes[k].nonVerbal then
            SilentAt(r.memory, k) && Lookup(r.memory.entries, k) == Some(Entry(segs[k], takes[k].cueLength, false))
          else if CheckCache(c, k, segs[k]).hit then SameAt(c, r.memory, k)
          else
            Lookup(r.memory.wavs, k) == Some(takes[k].wav)
            && Lookup(r.memory.entries, k) == Some(Entry(segs[k], takes[k].wav.length, takes[k].fallback)))
  }

  /** Index `k` once `n` passes are done. */
  ghost predicate LoopAt(c: Cache, segs: seq<string>, takes: seq<Take>, n: nat, r: Run, k: int)
    requires |segs| == |takes| && n <= |segs|
  {
    if 0 <= k < n then PassedAt(c, segs, takes, r, k)
    else SameAt(c, r.memory, k) && Lookup(r.saved.entries, k) == Lookup(c.entries, k)
  }

  ghost predicate ValidRun(r: Run) {
    ValidCache(r.memory) && ValidCache(OnDisk(r))
  }

  ghost predicate LoopInv(c: Cache, segs: seq<string>, takes: seq<Take>, n: nat, r: Run)
    requires |segs| == |takes| && n <= |segs|
  {
    ValidRun(r) && forall k :: LoopAt(c, segs, takes, n, r, k)
  }

  lemma PassMemoryAt(c: Cache, i: int, text: string, take: Take, k: int)
    ensures k != i ==> SameAt(c, PassMemory(c, i, text, take), k)
  {
  }

  lemma PassMemoryValid(c: Cache, i: int, text: string, take: Take)
    requires ValidCache(c)
    ensures ValidCache(PassMemory(c, i, text, take))
  {
    PopValid(SaveWav(c, i, Wav(None, take.cueLength)), i);
  }

  /** The lookup at an index depends on that index alone. */
  lemma CheckAt(c: Cache, d: Cache, k: int, text: string)
    requires SameAt(c, d, k)
    ensures CheckCache(c, k, text).hit == CheckCache(d, k, text).hit && (Audible(c, k) <==> Audible(d, k))
    ensures k in c.entries <==> k in d.entries
  {
  }

  lemma PassElsewhere(c: Cache, segs: seq<string>, takes: seq<Take>, n: nat, r: Run, k: int)
    requires |segs| == |takes| && n < |segs| && k != n && LoopAt(c, segs, takes, n, r, k)
    ensures LoopAt(c, segs, takes, n + 1, Pass(r, n, segs[n], takes[n]), k)
  {
    PassMemoryAt(r.memory, n, segs[n], takes[n], k);
  }

  lemma PassHere(c: Cache, segs: seq<string>, takes: seq<Take>, n: nat, r: Run)
    requires |segs| == |takes| && n < |segs| && (Spoken(segs, n) && Audible(c, n) ==> n in c.entries)
    requires LoopAt(c, segs, takes, n, r, n) && (n in c.entries ==> c.entries[n].content != "")
    ensures LoopAt(c, segs, takes, n + 1, Pass(r, n, segs[n], takes[n]), n)
  {
    CheckAt(c, r.memory, n, segs[n]);
  }

  lemma PassKeepsLoop(c: Cache, segs: seq<string>, takes: seq<Take>, n: nat, r: Run)
    requires |segs| == |takes| && n < |segs| && LoopInv(c, segs, takes, n, r)
    requires (Spoken(segs, n) && Audible(c, n) ==> n in c.entries) && (n in c.entries ==> c.entries[n].content != "")
    ensures LoopInv(c, segs, takes, n + 1, Pass(r, n, segs[n], takes[n]))
  {
    var r', done := Pass(r, n, segs[n], takes[n]), n + 1;
    PassMemoryValid(r.memory, n, segs[n], takes[n]);
    forall k
      ensures LoopAt(c, segs, takes, done, r', k)
    {
      assert LoopAt(c, segs, takes, n, r, k);
      if k == n {
        PassHere(c, segs, takes, n, r);
      } else {
        PassElsewhere(c, segs, takes, n, r, k);
      }
    }
  }

  lemma {:induction false} PassesKeepLoop(c: Cache, segs: seq<string>, takes: seq<Take>, n: nat)
    requires ValidCache(c) && |segs| == |takes| && n <= |segs| && NoOrphans(c, segs)
    requires forall k :: k in c.entries ==> c.entries[k].content != ""
    ensures LoopInv(c, segs, takes, n, Passes(c, segs, takes, n))
  {
    if n == 0 {
      assert OnDisk(Run(c, MetaOf(c))) == c;
    } else {
      PassesKeepLoop(c, segs, takes, n - 1);
      PassKeepsLoop(c, segs, takes, n - 1, Passes(c, segs, takes, n - 1));
    }
  }

  lemma MigratedContents(c: Cache, segs: seq<string>, k: int)
    requires Truthful(c) && !Migrated(c, segs).raised
    ensures k in Migrated(c, segs).cache.entries ==> Migrated(c, segs).cache.entries[k].content != ""
  {
    if !Spoken(segs, k) {
      LeftBehind(c, segs, k);
    } else if c.keys == [] {
      assert TruthAt(c, k);
    } else {
      SpokenAfter(c, segs, k);
    }
  }

  lemma GeneratedLoop(c: Cache, segs: seq<string>, takes: seq<Take>, n: nat)
    requires Truthful(c) && !Migrated(c, segs).raised && |segs| == |takes| && n <= |segs|
    ensures LoopInv(Migrated(c, segs).cache, segs, takes, n, GeneratedTo(c, segs, takes, n))
  {
    MigratedHasNoOrphans(c, segs);
    MigratedValid(c, segs);
    var after := Migrated(c, segs).cache;
    forall k | k in after.entries
      ensures after.entries[k].content != ""
    {
      MigratedContents(c, segs, k);
    }
    PassesKeepLoop(after, segs, takes, n);
  }

  // ----- Stops in the generation loop, and whole runs -----

  /** The truth of every index on disk while the loop runs. */
  lemma DiskTruthAt(c: Cache, segs: seq<string>, takes: seq<Take>, n: nat, k: int)
    requires Truthful(c) && !Migrated(c, segs).raised && Honest(segs, takes) && n <= |segs|
    ensures TruthAt(OnDisk(GeneratedTo(c, segs, takes, n)), k) <==> RightAt(c, segs, takes, n, k)
  {
    var after := Migrated(c, segs).cache;
    GeneratedLoop(c, segs, takes, n);
    assert LoopAt(after, segs, takes, n, GeneratedTo(c, segs, takes, n), k);
    MigratedTruthAt(c, segs, k);
    MigratedContents(c, segs, k);
    if Spoken(segs, k) {
      MigratedHit(c, segs, k);
      HitsArrive(c, segs, k);
    }
  }

  lemma HitsArrive(c: Cache, segs: seq<string>, i: nat)
    requires ValidCache(c) && i < |segs|
    ensures Hits(c, segs, i) ==> (ArrivalRight(c, segs, i) <==> LookupRight(c, segs, i))
  {
  }

  lemma GeneratingTruthIff(c: Cache, segs: seq<string>, takes: seq<Take>, n: nat)
    requires Truthful(c) && !Migrated(c, segs).raised && Honest(segs, takes) && n <= |segs|
    ensures Truthful(OnDisk(GeneratedTo(c, segs, takes, n))) <==> forall k :: RightAt(c, segs, takes, n, k)
  {
    GeneratedLoop(c, segs, takes, n);
    forall k
      ensures TruthAt(OnDisk(GeneratedTo(c, segs, takes, n)), k) <==> RightAt(c, segs, takes, n, k)
    {
      DiskTruthAt(c, segs, takes, n, k);
    }
  }

  /** A WAV written before its entry is saved. */
  lemma WrittenTruthIff(c: Cache, segs: seq<string>, takes: seq<Take>, n: nat)
    requires Truthful(c) && !Migrated(c, segs).raised && Honest(segs, takes) && n < |segs|
    requires WrittenWav(GeneratedTo(c, segs, takes, n).memory, n, segs[n], takes[n]).Some?
    ensures var r := GeneratedTo(c, segs, takes, n);
            var d := SaveWav(OnDisk(r), n, WrittenWav(r.memory, n, segs[n], takes[n]).value);
            ValidCache(d)
            && (Truthful(d) <==> WriteRight(c, segs, takes, n) && forall k :: k != n ==> RightAt(c, segs, takes, n, k))
  {
    var r := GeneratedTo(c, segs, takes, n);
    var d := SaveWav(OnDisk(r), n, WrittenWav(r.memory, n, segs[n], takes[n]).value);
    GeneratedLoop(c, segs, takes, n);
    WrittenTruthAt(c, segs, takes, n, d);
    forall k | k != n
      ensures TruthAt(d, k) <==> RightAt(c, segs, takes, n, k)
    {
      DiskTruthAt(c, segs, takes, n, k);
    }
  }

  lemma WrittenTruthAt(c: Cache, segs: seq<string>, takes: seq<Take>, n: nat, d: Cache)
    requires Truthful(c) && !Migrated(c, segs).raised && Honest(segs, takes) && n < |segs|
    requires var r := GeneratedTo(c, segs, takes, n);
             WrittenWav(r.memory, n, segs[n], takes[n]).Some?
             && d == SaveWav(OnDisk(r), n, WrittenWav(r.memory, n, segs[n], takes[n]).value)
    ensures TruthAt(d, n) <==> WriteRight(c, segs, takes, n)
  {
    var after := Migrated(c, segs).cache;
    GeneratedLoop(c, segs, takes, n);
    assert LoopAt(after, segs, takes, n, GeneratedTo(c, segs, takes, n), n);
    MigratedContents(c, segs, n);
    if !Blank(segs[n]) {
      if c.keys == [] {
        NothingMatchesNothing(c, segs, n);
        assert TruthAt(c, n) && n !in c.entries;
      } else {
        SpokenAfter(c, segs, n);
      }
    }
  }

  /** The truth of every index after a whole run. */
  lemma WholeTruthAt(c: Cache, segs: seq<string>, takes: seq<Take>, k: int)
    requires Truthful(c) && !Migrated(c, segs).raised && Honest(segs, takes)
    ensures TruthAt(AfterRun(c, segs, takes), k)
       <==> (Spoken(segs, k) ==> (Generates(c, segs) && takes[k].nonVerbal) || LookupRight(c, segs, k))
  {
    var after := Migrated(c, segs).cache;
    MigratedHasNoOrphans(c, segs);
    MigratedTruthAt(c, segs, k);
    if Spoken(segs, k) {
      MigratedHit(c, segs, k);
      HitsArrive(c, segs, k);
    }
    if Generates(c, segs) {
      GeneratedLoop(c, segs, takes, |segs|);
      assert LoopAt(after, segs, takes, |segs|, GeneratedTo(c, segs, takes, |segs|), k);
    }
  }

  lemma WholeTruthIff(c: Cache, segs: seq<string>, takes: seq<Take>)
    requires Truthful(c) && !Migrated(c, segs).raised && Honest(segs, takes)
    ensures ValidCache(AfterRun(c, segs, takes))
    ensures Truthful(AfterRun(c, segs, takes)) <==> KeepsTruth(c, Edit(segs, takes, Whole))
  {
    MigratedHasNoOrphans(c, segs);
    MigratedValid(c, segs);
    GeneratedLoop(c, segs, takes, |segs|);
    forall k
      ensures TruthAt(AfterRun(c, segs, takes), k)
         <==> (Spoken(segs, k) ==> (Generates(c, segs) && takes[k].nonVerbal) || LookupRight(c, segs, k))
    {
      WholeTruthAt(c, segs, takes, k);
    }
  }

  /**
   Any run, whole or cut short anywhere, leaves a truthful disk truthful exactly when its condition holds.
   */
  lemma EditTruthIff(c: Cache, e: Edit)
    requires Truthful(c) && CanEnd(c, e)
    ensures Truthful(After(c, e)) <==> KeepsTruth(c, e)
  {
    match e.ending
    case Whole => WholeTruthIff(c, e.segs, e.takes);
    case Short(stop) =>
      match stop
      case Moving(n) =>
        MovedTruthIff(c, e.segs, n, {});
        var m := Moved(c, e.segs, n);
        assert m.(wavs := m.wavs - {}) == m;
      case Sweeping(gone) => MovedTruthIff(c, e.segs, |e.segs|, gone);
      case Generating(n) => GeneratingTruthIff(c, e.segs, e.takes, n);
      case WrittenUnsaved(n) => WrittenTruthIff(c, e.segs, e.takes, n);
      case Torn(n) =>
        var d := AfterStop(c, e.segs, e.takes, stop);
        forall k
          ensures TruthAt(d, k) <==> !Audible(GeneratedTo(c, e.segs, e.takes, n).memory, k)
        {
        }
  }

  // ----- Histories -----

  lemma {:induction false} CheckAllValid(c: Cache, segs: seq<string>, n: nat)
    requires ValidCache(c) && n <= |segs|
    ensures ValidCache(CheckAll(c, segs, n).0)
  {
    if n > 0 { CheckAllValid(c, segs, n - 1); }
  }

  lemma PassValid(r: Run, i: int, text: string, take: Take)
    requires ValidRun(r)
    ensures ValidRun(Pass(r, i, text, take))
  {
    PassMemoryValid(r.memory, i, text, take);
  }

  lemma {:induction false} PassesValid(c: Cache, segs: seq<string>, takes: seq<Take>, n: nat)
    requires ValidCache(c) && n <= |segs| == |takes|
    ensures ValidRun(Passes(c, segs, takes, n))
  {
    if n > 0 {
      PassesValid(c, segs, takes, n - 1);
      PassValid(Passes(c, segs, takes, n - 1), n - 1, segs[n - 1], takes[n - 1]);
    }
  }

  lemma GeneratedValid(c: Cache, segs: seq<string>, takes: seq<Take>, n: nat)
    requires ValidCache(c) && n <= |segs| == |takes|
    ensures ValidCache(Checked(c, segs).0) && ValidRun(GeneratedTo(c, segs, takes, n))
  {
    MigratedValid(c, segs);
    CheckAllValid(Migrated(c, segs).cache, segs, |segs|);
    PassesValid(Checked(c, segs).0, segs, takes, n);
  }

  lemma AfterValid(c: Cache, e: Edit)
    requires ValidCache(c) && CanEnd(c, e)
    ensures ValidCache(After(c, e))
  {
    if e.ending.Short? && !e.ending.stop.Moving? && !e.ending.stop.Sweeping? {
      GeneratedValid(c, e.segs, e.takes, e.ending.stop.n);
    } else {
      GeneratedValid(c, e.segs, e.takes, |e.segs|);
    }
  }

  /** Each edit can run as it says from the disk that the ones before it leave. */
  ghost predicate Happens(c: Cache, edits: seq<Edit>)
    requires ValidCache(c)
    decreases |edits|
  {
    edits == [] || (CanEnd(c, edits[0]) && (AfterValid(c, edits[0]); Happens(After(c, edits[0]), edits[1..])))
  }

  /** The disk after the first `n` edits. */
  ghost function DiskAfter(c: Cache, edits: seq<Edit>, n: nat): (d: Cache)
    requires ValidCache(c) && Happens(c, edits) && n <= |edits|
    ensures ValidCache(d) && (n < |edits| ==> CanEnd(d, edits[n]))
    decreases n
  {
    if n == 0 then c else AfterValid(c, edits[0]); DiskAfter(After(c, edits[0]), edits[1..], n - 1)
  }

  lemma {:induction false} DiskStep(c: Cache, edits: seq<Edit>, n: nat)
    requires ValidCache(c) && Happens(c, edits) && n < |edits|
    ensures DiskAfter(c, edits, n + 1) == After(DiskAfter(c, edits, n), edits[n])
    decreases n
  {
    AfterValid(c, edits[0]);
    if n > 0 { DiskStep(After(c, edits[0]), edits[1..], n - 1); }
  }

  ghost predicate AllTruthful(c: Cache, edits: seq<Edit>, n: nat)
    requires ValidCache(c) && Happens(c, edits) && n <= |edits|
  {
    forall k: nat :: k <= n ==> Truthful(DiskAfter(c, edits, k))
  }

  ghost predicate AllKeepTruth(c: Cache, edits: seq<Edit>, n: nat)
    requires ValidCache(c) && Happens(c, edits) && n <= |edits|
  {
    forall k: nat :: k < n ==> KeepsTruth(DiskAfter(c, edits, k), edits[k])
  }

  /**
   Over any history of whole runs, raises and crashes, the disk is truthful all along exactly when every run
   meets its condition.
   */
  lemma {:induction false} HistoryTruthIff(c: Cache, edits: seq<Edit>, n: nat)
    requires Truthful(c) && Happens(c, edits) && n <= |edits|
    ensures AllTruthful(c, edits, n) <==> AllKeepTruth(c, edits, n)
  {
    if n == 0 {
      assert DiskAfter(c, edits, 0) == c;
    } else {
      HistoryTruthIff(c, edits, n - 1);
      TruthStep(c, edits, n, DiskAfter(c, edits, n - 1), DiskAfter(c, edits, n));
      AllStep(c, edits, n);
    }
  }

  lemma TruthStep(c: Cache, edits: seq<Edit>, n: nat, before: Cache, after: Cache)
    requires ValidCache(c) && Happens(c, edits) && 0 < n <= |edits|
    requires before == DiskAfter(c, edits, n - 1) && after == DiskAfter(c, edits, n)
    ensures Truthful(before) ==> (Truthful(after) <==> KeepsTruth(before, edits[n - 1]))
  {
    DiskStep(c, edits, n - 1);
    TruthBetween(before, edits[n - 1], after);
  }

  lemma TruthBetween(c: Cache, e: Edit, d: Cache)
    requires ValidCache(c) && CanEnd(c, e) && d == After(c, e)
    ensures Truthful(c) ==> (Truthful(d) <==> KeepsTruth(c, e))
  {
    if Truthful(c) { EditTruthIff(c, e); }
  }

  lemma AllStep(c: Cache, edits: seq<Edit>, n: nat)
    requires ValidCache(c) && Happens(c, edits) && 0 < n <= |edits|
    ensures AllTruthful(c, edits, n) <==> AllTruthful(c, edits, n - 1) && Truthful(DiskAfter(c, edits, n))
    ensures AllTruthful(c, edits, n - 1) ==> Truthful(DiskAfter(c, edits, n - 1))
    ensures AllKeepTruth(c, edits, n)
       <==> AllKeepTruth(c, edits, n - 1) && KeepsTruth(DiskAfter(c, edits, n - 1), edits[n - 1])
  {
  }

  /** As long as every run meets its condition, a hit of the next one is right exactly where the lookup is. */
  lemma HistoryHitRightIff(c: Cache, edits: seq<Edit>, n: nat, segs: seq<string>, i: nat)
    requires Truthful(c) && Happens(c, edits) && n <= |edits| && AllKeepTruth(c, edits, n)
    requires !Migrated(DiskAfter(c, edits, n), segs).raised && i < |segs| && !Blank(segs[i])
    ensures HitRight(Migrated(DiskAfter(c, edits, n), segs).cache, segs, i)
       <==> LookupRight(DiskAfter(c, edits, n), segs, i)
  {
    HistoryTruthIff(c, edits, n);
    assert Truthful(DiskAfter(c, edits, n));
    HitRightIff(DiskAfter(c, edits, n), segs, i);
  }

  // ----- Backed disks -----

  /** Every index that audio moved away from is filled again by this run. */
  ghost predicate Refilled(c: Cache, segs: seq<string>)
    requires ValidCache(c)
  {
    forall k :: Taken(c, segs, k, |segs|) ==> 0 <= k < |segs| && (Blank(segs[k]) ==> Generates(c, segs))
  }

  /** From a backed disk a whole run keeps the truth. */
  lemma RunKeepsTruth(c: Cache, segs: seq<string>, takes: seq<Take>)
    requires Truthful(c) && Backed(c) && Honest(segs, takes) && !Migrated(c, segs).raised
    ensures Truthful(AfterRun(c, segs, takes))
  {
    forall i: nat | Spoken(segs, i)
      ensures LookupRight(c, segs, i)
    {
      if Hits(c, segs, i) {
        BackedOrigin(c, segs, i);
        MatchOwnsItsContent(c, segs, i);
      }
    }
    WholeTruthIff(c, segs, takes);
  }

  /** A whole run leaves a backed disk exactly when it refills. */
  lemma BackedIffRefilled(c: Cache, segs: seq<string>, takes: seq<Take>)
    requires Truthful(c) && Honest(segs, takes) && !Migrated(c, segs).raised
    ensures Backed(AfterRun(c, segs, takes)) <==> Refilled(c, segs)
  {
    var r := AfterRun(c, segs, takes);
    forall k
      ensures k in r.entries && k !in r.wavs
         <==> Taken(c, segs, k, |segs|) && !(0 <= k < |segs| && (Blank(segs[k]) ==> Generates(c, segs)))
    {
      UnbackedIff(c, segs, takes, k);
    }
    if Refilled(c, segs) {
      forall k | k in r.entries
        ensures k in r.wavs
      {
      }
    }
  }

  /** Where a whole run leaves an entry without its WAV. */
  lemma UnbackedIff(c: Cache, segs: seq<string>, takes: seq<Take>, k: int)
    requires Truthful(c) && Honest(segs, takes) && !Migrated(c, segs).raised
    ensures var r := AfterRun(c, segs, takes);
            k in r.entries && k !in r.wavs
            <==> Taken(c, segs, k, |segs|) && !(0 <= k < |segs| && (Blank(segs[k]) ==> Generates(c, segs)))
  {
    var after := Migrated(c, segs).cache;
    MigratedHasNoOrphans(c, segs);
    if !Spoken(segs, k) {
      LeftBehind(c, segs, k);
    } else {
      MigratedHit(c, segs, k);
    }
    if Generates(c, segs) {
      GeneratedLoop(c, segs, takes, |segs|);
      assert LoopAt(after, segs, takes, |segs|, GeneratedTo(c, segs, takes, |segs|), k);
    }
  }
}
