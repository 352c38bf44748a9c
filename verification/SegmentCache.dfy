/**
 The per-segment audio cache of gen_audio.py: `cache_meta.json` and the WAV files beside it.
 `Migrate` remaps both in place when an edited SRT shifts the segment indices.
 */
module SegmentCache {
  import opened Text
  import opened Sequences

  datatype Entry = Entry(content: string, duration: real, fallback: bool)

  /** A WAV file: the words a listener hears (None when it is silent) and its length. */
  datatype Wav = Wav(speech: Option<string>, length: real)

  /** The cache dictionary (`keys` in insertion order) and the WAV files on disk, both by segment index. */
  datatype Cache = Cache(keys: seq<int>, entries: map<int, Entry>, wavs: map<int, Wav>)

  /** The dictionary alone, as `cache_meta.json` keeps it. */
  datatype Meta = Meta(keys: seq<int>, entries: map<int, Entry>)

  function MetaOf(c: Cache): Meta {
    Meta(c.keys, c.entries)
  }

  ghost predicate ValidCache(c: Cache) {
    && (forall k :: k in c.keys <==> k in c.entries)
    && Distinct(c.keys)
  }

  // ----- The dictionary operations -----

  function PutEntry(c: Cache, k: int, e: Entry): Cache {
    c.(keys := if k in c.entries then c.keys else c.keys + [k], entries := c.entries[k := e])
  }

  function PopEntry(c: Cache, k: int): Cache {
    c.(keys := Without(c.keys, {k}), entries := c.entries - {k})
  }

  // ----- The migration, as a function of the state -----

  /** The content -> [(old index, duration)] lists that still wait for a segment. */
  type Waiting = map<string, seq<(int, real)>>

  function Enqueue(w: Waiting, text: string, item: (int, real)): Waiting {
    w[text := (if text in w then w[text] else []) + [item]]
  }

  function WaitingFor(keys: seq<int>, entries: map<int, Entry>): Waiting
    requires forall k :: k in keys ==> k in entries
  {
    if keys == [] then map[]
    else
      var k := keys[|keys| - 1];
      var w := WaitingFor(keys[..|keys| - 1], entries);
      var e := entries[k];
      if e.content == "" then w else Enqueue(w, e.content, (k, e.duration))
  }

  function Dequeue(w: Waiting, text: string): Waiting
    requires text in w && w[text] != []
  {
    if |w[text]| == 1 then w - {text} else w[text := w[text][1..]]
  }

  datatype Migration = Migration(cache: Cache, waiting: Waiting, raised: bool)

  /** The WAV files after old WAV `o` was matched to segment `i`; None when `os.remove` raises. */
  function MoveWav(wavs: map<int, Wav>, o: int, i: int): Option<map<int, Wav>> {
    if o == i then Some(wavs)
    else if o in wavs && i !in wavs then Some(wavs[i := wavs[o]] - {o})
    else if i in wavs then if o in wavs then Some(wavs - {o}) else None
    else Some(wavs)
  }

  /** One pass of the matching loop: segment `i` has the clean content `text`. */
  function MatchSegment(m: Migration, i: int, text: string): Migration
    requires forall t :: t in m.waiting ==> m.waiting[t] != []
  {
    if m.raised || Blank(text) then m
    else if text in m.waiting then
      var (o, duration) := m.waiting[text][0];
      var w := Dequeue(m.waiting, text);
      var fallback := o in m.cache.entries && m.cache.entries[o].fallback;
      match MoveWav(m.cache.wavs, o, i) {
        case None => Migration(m.cache, w, true)
        case Some(wavs) =>
          Migration(PutEntry(m.cache, i, Entry(text, duration, fallback)).(wavs := wavs), w, false)
      }
    else
      var c := PopEntry(m.cache, i);
      m.(cache := c.(wavs := c.wavs - {i}))
  }

  function MatchSegments(m: Migration, segs: seq<string>, n: nat): (r: Migration)
    requires n <= |segs|
    requires forall t :: t in m.waiting ==> m.waiting[t] != []
    ensures forall t :: t in r.waiting ==> r.waiting[t] != []
  {
    if n == 0 then m else MatchSegment(MatchSegments(m, segs, n - 1), n - 1, segs[n - 1])
  }

  /** The final sweep: entries still waiting go, and so do the WAVs of those still in the cache. */
  function Sweep(c: Cache, stale: set<int>): Cache {
    Cache(Without(c.keys, stale), c.entries - stale, c.wavs - (stale * c.entries.Keys))
  }

  function Unmatched(w: Waiting): set<int> {
    set t, j | t in w && 0 <= j < |w[t]| :: w[t][j].0
  }

  lemma WaitingNonempty(keys: seq<int>, entries: map<int, Entry>)
    requires forall k :: k in keys ==> k in entries
    ensures forall t :: t in WaitingFor(keys, entries) ==> WaitingFor(keys, entries)[t] != []
  {
  }

  ghost function Start(c: Cache): (m: Migration)
    requires ValidCache(c)
    ensures forall t :: t in m.waiting ==> m.waiting[t] != []
  {
    WaitingNonempty(c.keys, c.entries);
    Migration(c, WaitingFor(c.keys, c.entries), false)
  }

  /** `_migrate_cache`: the state it leaves and whether it raised. */
  ghost function Migrated(c: Cache, segs: seq<string>): Migration
    requires ValidCache(c)
  {
    if c.keys == [] then Migration(c, map[], false)
    else
      var m := MatchSegments(Start(c), segs, |segs|);
      if m.raised then m else m.(cache := Sweep(m.cache, Unmatched(m.waiting)))
  }

  // ----- The source's form: one object, updated in place -----

  lemma SweepStepFiles(entries: map<int, Entry>, wavs: map<int, Wav>, stale: set<int>, k: int)
    ensures entries - (stale + {k}) == (entries - stale) - {k}
    ensures k !in entries - stale ==> entries - (stale + {k}) == entries - stale
    ensures wavs - ((stale + {k}) * entries.Keys)
         == if k in entries - stale then (wavs - (stale * entries.Keys)) - {k} else wavs - (stale * entries.Keys)
  {
    var gone, more := stale * entries.Keys, (stale + {k}) * entries.Keys;
    assert k in entries - stale ==> more == gone + {k};
    assert k !in entries - stale ==> more == gone;
  }

  lemma SweepStep(c: Cache, stale: set<int>, k: int)
    requires ValidCache(c)
    ensures var s := Sweep(c, stale);
            Sweep(c, stale + {k}) == if k in s.entries then PopEntry(s, k).(wavs := s.wavs - {k}) else s
  {
    WithoutTwice(c.keys, stale, {k});
    SweepStepFiles(c.entries, c.wavs, stale, k);
    WithoutMembers(c.keys, stale, k);
    if k !in Sweep(c, stale).entries {
      WithoutAbsent(Without(c.keys, stale), {k});
    }
  }

  /** Every operation of the migration keeps the dictionary well formed. */
  lemma MatchSegmentValid(m: Migration, i: int, text: string)
    requires ValidCache(m.cache) && forall t :: t in m.waiting ==> m.waiting[t] != []
    ensures ValidCache(MatchSegment(m, i, text).cache)
  {
    PopValid(m.cache, i);
  }

  lemma PopValid(c: Cache, k: int)
    requires ValidCache(c)
    ensures ValidCache(PopEntry(c, k))
  {
    KeysWithout(c, {k});
  }

  lemma KeysWithout(c: Cache, gone: set<int>)
    requires ValidCache(c)
    ensures Distinct(Without(c.keys, gone))
    ensures forall k :: k in Without(c.keys, gone) <==> k in c.entries && k !in gone
  {
    WithoutDistinct(c.keys, gone);
    forall k
      ensures k in Without(c.keys, gone) <==> k in c.entries && k !in gone
    {
      WithoutMembers(c.keys, gone, k);
    }
  }

  lemma SweepValid(c: Cache, stale: set<int>)
    requires ValidCache(c)
    ensures ValidCache(Sweep(c, stale))
  {
    KeysWithout(c, stale);
  }

  class SegmentStore {
    var keys: seq<int>
    var entries: map<int, Entry>
    var wavs: map<int, Wav>
    var saved: Meta

    ghost function State(): Cache
      reads this
    {
      Cache(keys, entries, wavs)
    }

    ghost predicate Valid()
      reads this
    {
      ValidCache(State())
    }

    constructor (keys: seq<int>, entries: map<int, Entry>, wavs: map<int, Wav>)
      requires ValidCache(Cache(keys, entries, wavs))
      ensures Valid() && State() == Cache(keys, entries, wavs) && saved == MetaOf(State())
    {
      this.keys, this.entries, this.wavs, saved := keys, entries, wavs, Meta(keys, entries);
    }

    /** `_save_cache`. */
    method Save()
      modifies this`saved
      ensures saved == MetaOf(State())
    {
      saved := Meta(keys, entries);
    }

    method Set(k: int, e: Entry)
      requires Valid()
      modifies this`keys, this`entries
      ensures Valid() && State() == PutEntry(old(State()), k, e)
    {
      if k !in entries {
        keys := keys + [k];
      }
      entries := entries[k := e];
    }

    method Pop(k: int)
      requires Valid()
      modifies this`keys, this`entries
      ensures Valid() && State() == PopEntry(old(State()), k)
    {
      PopValid(State(), k);
      keys := Without(keys, {k});
      entries := entries - {k};
    }

    method GroupByContent() returns (w: Waiting)
      requires Valid()
      ensures w == Start(State()).waiting
    {
      w := map[];
      for n := 0 to |keys|
        invariant w == WaitingFor(keys[..n], entries)
      {
        assert keys[..n + 1][..n] == keys[..n];
        var k := keys[n];
        assert k in keys;
        var e := entries[k];
        if e.content != "" {
          w := Enqueue(w, e.content, (k, e.duration));
        }
      }
      assert keys[..|keys|] == keys;
    }

    method SweepStale(w: Waiting)
      requires Valid()
      modifies this`keys, this`entries, this`wavs
      ensures Valid() && State() == Sweep(old(State()), Unmatched(w))
    {
      ghost var was := State();
      ghost var done: set<int> := {};
      SweepNone(was);
      var texts := w.Keys;
      while texts != {}
        invariant texts <= w.Keys && Valid()
        invariant State() == Sweep(was, done)
        invariant forall k :: k in done <==> exists t, j :: t in w && t !in texts && 0 <= j < |w[t]| && w[t][j].0 == k
      {
        var text :| text in texts;
        ghost var before := done;
        for n := 0 to |w[text]|
          invariant Valid() && State() == Sweep(was, done)
          invariant forall k :: k in done <==> k in before || exists j :: 0 <= j < n && w[text][j].0 == k
        {
          var oldIdx := w[text][n].0;
          SweepStep(was, done, oldIdx);
          if oldIdx in entries {
            wavs := wavs - {oldIdx};
            Pop(oldIdx);
          }
          done := done + {oldIdx};
        }
        texts := texts - {text};
      }
      assert done == Unmatched(w) by {
        forall k | k in Unmatched(w)
          ensures k in done
        {
          var t, j :| t in w && 0 <= j < |w[t]| && w[t][j].0 == k;
          assert t !in texts;
        }
        forall k | k in done
          ensures k in Unmatched(w)
        {
          var t, j :| t in w && t !in texts && 0 <= j < |w[t]| && w[t][j].0 == k;
        }
      }
    }

    /** The body of the matching loop. */
    method MatchOne(i: int, text: string, waiting: Waiting) returns (w: Waiting, raised: bool)
      requires Valid() && forall t :: t in waiting ==> waiting[t] != []
      modifies this`keys, this`entries, this`wavs
      ensures Valid()
      ensures Migration(State(), w, raised) == MatchSegment(Migration(old(State()), waiting, false), i, text)
    {
      w, raised := waiting, false;
      if Blank(text) {
        return;
      }
      if text in w {
        var (o, duration) := w[text][0];
        w := Dequeue(w, text);
        var fallback := o in entries && entries[o].fallback;
        if o != i {
          if o in wavs && i !in wavs {
            wavs := wavs[i := wavs[o]] - {o};
          } else if i in wavs {
            if o !in wavs {
              return w, true;
            }
            wavs := wavs - {o};
          }
        }
        Set(i, Entry(text, duration, fallback));
      } else {
        Pop(i);
        wavs := wavs - {i};
      }
    }

    /** `_migrate_cache`. */
    method Migrate(segs: seq<string>) returns (raised: bool)
      requires Valid()
      modifies this
      ensures Valid()
      ensures raised == Migrated(old(State()), segs).raised
      ensures State() == Migrated(old(State()), segs).cache
      ensures saved == if raised || old(keys) == [] then old(saved) else MetaOf(State())
    {
      if keys == [] {
        return false;
      }
      ghost var start := Start(State());
      var w := GroupByContent();
      for i := 0 to |segs|
        invariant Valid() && saved == old(saved)
        invariant Migration(State(), w, false) == MatchSegments(start, segs, i)
      {
        w, raised := MatchOne(i, segs[i], w);
        if raised {
          MatchSegmentsRaised(start, segs, i + 1, |segs|);
          return;
        }
      }
      SweepStale(w);
      Save();
      return false;
    }
  }

  lemma SweepNone(c: Cache)
    ensures Sweep(c, {}) == c
  {
    WithoutAbsent(c.keys, {});
    assert c.entries - {} == c.entries;
    assert c.wavs - {} * c.entries.Keys == c.wavs;
  }

  lemma {:induction false} MatchSegmentsRaised(m: Migration, segs: seq<string>, n: nat, k: nat)
    requires n <= k <= |segs|
    requires forall t :: t in m.waiting ==> m.waiting[t] != []
    requires MatchSegments(m, segs, n).raised
    ensures MatchSegments(m, segs, k) == MatchSegments(m, segs, n)
  {
    if n < k {
      MatchSegmentsRaised(m, segs, n, k - 1);
    }
  }
}
