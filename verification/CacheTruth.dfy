/**
 What `_migrate_cache` promises: a later cache hit plays the words of its segment.
 The reference is `Match`, the first-in-first-out pairing of segments with old entries; the
 state after every step has a closed form in terms of it.
 */
module CacheTruth {
  import opened Text
  import opened Sequences
  import opened SegmentCache

  // ----- The reference pairing -----

  /** The old indices with this content, oldest first. */
  function KeysWith(keys: seq<int>, entries: map<int, Entry>, text: string): (r: seq<int>)
    requires forall k :: k in keys ==> k in entries
    ensures forall k :: k in r ==> k in keys && entries[k].content == text
  {
    if keys == [] then []
    else
      var k := keys[|keys| - 1];
      KeysWith(keys[..|keys| - 1], entries, text) + if entries[k].content == text then [k] else []
  }

  /** How many of the first `n` segments ask for this content. */
  function Asked(segs: seq<string>, n: nat, text: string): (r: nat)
    requires n <= |segs|
  {
    if n == 0 then 0
    else Asked(segs, n - 1, text) + if !Blank(segs[n - 1]) && segs[n - 1] == text then 1 else 0
  }

  /** The old entry whose audio segment `i` should get. */
  ghost function Match(c: Cache, segs: seq<string>, i: nat): Option<int>
    requires ValidCache(c) && i < |segs|
  {
    if Blank(segs[i]) then None
    else
      var ks, r := KeysWith(c.keys, c.entries, segs[i]), Asked(segs, i, segs[i]);
      if r < |ks| then Some(ks[r]) else None
  }

  ghost predicate Taken(c: Cache, segs: seq<string>, k: int, n: nat)
    requires ValidCache(c) && n <= |segs|
  {
    exists j: nat :: j < n && j != k && Match(c, segs, j) == Some(k)
  }

  // ----- The pairing is one to one -----

  lemma {:induction false} KeysWithDistinct(keys: seq<int>, entries: map<int, Entry>, text: string)
    requires forall k :: k in keys ==> k in entries
    requires Distinct(keys)
    ensures Distinct(KeysWith(keys, entries, text))
  {
    if keys != [] {
      KeysWithDistinct(keys[..|keys| - 1], entries, text);
      assert keys[|keys| - 1] !in KeysWith(keys[..|keys| - 1], entries, text);
    }
  }

  lemma {:induction false} KeysWithComplete(keys: seq<int>, entries: map<int, Entry>, k: int)
    requires forall k :: k in keys ==> k in entries
    requires k in keys
    ensures k in KeysWith(keys, entries, entries[k].content)
  {
    if keys[|keys| - 1] != k {
      KeysWithComplete(keys[..|keys| - 1], entries, k);
    }
  }

  lemma {:induction false} AskedMonotone(segs: seq<string>, i: nat, j: nat, text: string)
    requires i <= j <= |segs|
    ensures Asked(segs, i, text) <= Asked(segs, j, text)
  {
    if i < j {
      AskedMonotone(segs, i, j - 1, text);
    }
  }

  lemma MatchOwnsItsContent(c: Cache, segs: seq<string>, i: nat)
    requires ValidCache(c) && i < |segs| && Match(c, segs, i).Some?
    ensures var o := Match(c, segs, i).value; o in c.entries && c.entries[o].content == segs[i]
  {
    var o := Match(c, segs, i).value;
    assert o in KeysWith(c.keys, c.entries, segs[i]);
  }

  lemma MatchesDiffer(c: Cache, segs: seq<string>, i: nat, j: nat)
    requires ValidCache(c) && i < j < |segs|
    requires Match(c, segs, i).Some? && Match(c, segs, j).Some?
    ensures Match(c, segs, i) != Match(c, segs, j)
  {
    MatchOwnsItsContent(c, segs, i);
    MatchOwnsItsContent(c, segs, j);
    if segs[i] == segs[j] {
      KeysWithDistinct(c.keys, c.entries, segs[i]);
      AskedMonotone(segs, i + 1, j, segs[i]);
      var ks, a, b := KeysWith(c.keys, c.entries, segs[i]), Asked(segs, i, segs[i]), Asked(segs, j, segs[j]);
      assert a < b && ks[a] != ks[b];
    }
  }

  lemma MatchInjective(c: Cache, segs: seq<string>, i: nat, j: nat)
    requires ValidCache(c) && i < |segs| && j < |segs|
    requires Match(c, segs, i).Some? && Match(c, segs, i) == Match(c, segs, j)
    ensures i == j
  {
    if i < j {
      MatchesDiffer(c, segs, i, j);
    } else if j < i {
      MatchesDiffer(c, segs, j, i);
    }
  }

  /** The matched segment is the only one that can take an old WAV away. */
  lemma OnlyTaker(c: Cache, segs: seq<string>, i: nat, n: nat)
    requires ValidCache(c) && i < |segs| && n <= |segs| && Match(c, segs, i).Some?
    ensures var k := Match(c, segs, i).value; Taken(c, segs, k, n) <==> i < n && i != k
  {
    var k := Match(c, segs, i).value;
    forall j: nat | j < n && j != k && Match(c, segs, j) == Some(k)
      ensures j == i
    {
      MatchInjective(c, segs, j, i);
    }
  }

  // ----- The waiting lists are what the pairing leaves -----

  function Waits(w: Waiting, text: string): seq<(int, real)> {
    if text in w then w[text] else []
  }

  function Item(entries: map<int, Entry>, k: int): (int, real) {
    (k, if k in entries then entries[k].duration else 0.0)
  }

  function Items(ks: seq<int>, entries: map<int, Entry>): seq<(int, real)> {
    seq(|ks|, i requires 0 <= i < |ks| => Item(entries, ks[i]))
  }

  lemma ItemsAppend(ks: seq<int>, entries: map<int, Entry>, k: int)
    ensures Items(ks + [k], entries) == Items(ks, entries) + [Item(entries, k)]
  {
  }

  lemma {:induction false} WaitingForIsKeysWith(keys: seq<int>, entries: map<int, Entry>, text: string)
    requires forall k :: k in keys ==> k in entries
    ensures Waits(WaitingFor(keys, entries), text)
         == if text == "" then [] else Items(KeysWith(keys, entries, text), entries)
  {
    if keys != [] {
      WaitingForIsKeysWith(keys[..|keys| - 1], entries, text);
      ItemsAppend(KeysWith(keys[..|keys| - 1], entries, text), entries, keys[|keys| - 1]);
    }
  }

  ghost function Left(c: Cache, segs: seq<string>, n: nat, text: string): seq<(int, real)>
    requires ValidCache(c) && n <= |segs|
  {
    var ks, r := KeysWith(c.keys, c.entries, text), Asked(segs, n, text);
    Items(if r <= |ks| then ks[r..] else [], c.entries)
  }

  ghost predicate WaitingAt(c: Cache, segs: seq<string>, n: nat, w: Waiting)
    requires ValidCache(c) && n <= |segs|
  {
    && (forall t :: t in w ==> t != "" && w[t] != [])
    && forall text :: text != "" ==> Waits(w, text) == Left(c, segs, n, text)
  }

  lemma WaitingAtStart(c: Cache, segs: seq<string>)
    requires ValidCache(c)
    ensures WaitingAt(c, segs, 0, Start(c).waiting)
  {
    WaitingForIsKeysWith(c.keys, c.entries, "");
    forall text | text != ""
      ensures Waits(Start(c).waiting, text) == Left(c, segs, 0, text)
    {
      WaitingForIsKeysWith(c.keys, c.entries, text);
      assert KeysWith(c.keys, c.entries, text)[0..] == KeysWith(c.keys, c.entries, text);
    }
  }

  /** The head of a waiting list is the segment's match. */
  lemma WaitingHead(c: Cache, segs: seq<string>, n: nat, w: Waiting)
    requires ValidCache(c) && n < |segs| && WaitingAt(c, segs, n, w) && !Blank(segs[n])
    ensures segs[n] in w ==>
              && Match(c, segs, n) == Some(w[segs[n]][0].0)
              && w[segs[n]][0] == Item(c.entries, w[segs[n]][0].0)
              && Left(c, segs, n + 1, segs[n]) == w[segs[n]][1..]
    ensures segs[n] !in w ==> Match(c, segs, n) == None && Left(c, segs, n + 1, segs[n]) == []
  {
    var text := segs[n];
    var ks, r := KeysWith(c.keys, c.entries, text), Asked(segs, n, text);
    assert Waits(w, text) == Left(c, segs, n, text);
    if text in w {
      assert r < |ks|;
      assert Items(ks[r..], c.entries)[1..] == Items(ks[r + 1..], c.entries);
    }
  }

  lemma WaitingFrame(c: Cache, segs: seq<string>, n: nat, text: string)
    requires ValidCache(c) && n < |segs| && (Blank(segs[n]) || text != segs[n])
    ensures Left(c, segs, n + 1, text) == Left(c, segs, n, text)
  {
  }

  ghost predicate NoneEmptyWaits(w: Waiting) {
    forall t :: t in w ==> w[t] != []
  }

  lemma SegmentWaits(m: Migration, i: int, text: string, t: string)
    requires NoneEmptyWaits(m.waiting) && !m.raised
    ensures Waits(MatchSegment(m, i, text).waiting, t)
            == if !Blank(text) && t == text && text in m.waiting then m.waiting[t][1..] else Waits(m.waiting, t)
    ensures NoneEmptyWaits(MatchSegment(m, i, text).waiting)
  {
  }

  /** One pass takes exactly the matched entry off its list. */
  lemma WaitingStep(c: Cache, segs: seq<string>, n: nat, m: Migration)
    requires ValidCache(c) && n < |segs|
    requires WaitingAt(c, segs, n, m.waiting) && !m.raised
    ensures WaitingAt(c, segs, n + 1, MatchSegment(m, n, segs[n]).waiting)
  {
    var w' := MatchSegment(m, n, segs[n]).waiting;
    SegmentWaits(m, n, segs[n], "");
    forall t | t != ""
      ensures Waits(w', t) == Left(c, segs, n + 1, t)
    {
      SegmentWaits(m, n, segs[n], t);
      assert Waits(m.waiting, t) == Left(c, segs, n, t);
      if Blank(segs[n]) || t != segs[n] {
        WaitingFrame(c, segs, n, t);
      } else {
        WaitingHead(c, segs, n, m.waiting);
      }
    }
  }

  // ----- Closed forms -----

  /** WAV `k` is still on disk when segment `k` is reached. */
  ghost predicate Held(c: Cache, segs: seq<string>, k: nat)
    requires ValidCache(c) && k < |segs|
  {
    k in c.wavs && !Taken(c, segs, k, k)
  }

  /** A segment after `k` has taken what lay at index `k` by the time `n` segments are done. */
  ghost predicate LaterTaken(c: Cache, segs: seq<string>, k: int, n: nat)
    requires ValidCache(c) && n <= |segs|
  {
    exists j: nat :: k < j < n && Match(c, segs, j) == Some(k)
  }

  function Own(c: Cache, k: int): Option<int> {
    if k in c.wavs then Some(k) else None
  }

  /**
   The old index whose WAV lies at index `k` once `n` segments are done. A segment that finds its place
   empty gets what lies at its match's index by then, which may itself have come from elsewhere.
   */
  ghost function Origin(c: Cache, segs: seq<string>, n: nat, k: int): Option<int>
    requires ValidCache(c) && n <= |segs|
    decreases n
  {
    if 0 <= k < n && !Blank(segs[k]) then
      match Match(c, segs, k)
      case None => None
      case Some(o) =>
        if o == k then Own(c, k)
        else if LaterTaken(c, segs, k, n) then None
        else if Held(c, segs, k) then Some(k)
        else Origin(c, segs, k, o)
    else if Taken(c, segs, k, n) then None
    else Own(c, k)
  }

  lemma {:induction false} OriginIsOnDisk(c: Cache, segs: seq<string>, n: nat, k: int)
    requires ValidCache(c) && n <= |segs|
    ensures Origin(c, segs, n, k).Some? ==> Origin(c, segs, n, k).value in c.wavs
    decreases n
  {
    if 0 <= k < n && !Blank(segs[k]) && Match(c, segs, k).Some? {
      OriginIsOnDisk(c, segs, k, Match(c, segs, k).value);
    }
  }

  ghost function WavAfter(c: Cache, segs: seq<string>, n: nat, k: int): Option<Wav>
    requires ValidCache(c) && n <= |segs|
  {
    var o := Origin(c, segs, n, k);
    if o.Some? then Lookup(c.wavs, o.value) else None
  }

  /** The `os.remove` of the matching loop fails at segment `i`. */
  ghost predicate RaisesAt(c: Cache, segs: seq<string>, i: nat)
    requires ValidCache(c) && i < |segs|
  {
    && Match(c, segs, i).Some? && Match(c, segs, i).value != i
    && Held(c, segs, i) && Origin(c, segs, i, Match(c, segs, i).value) == None
  }

  /** The fallback flag written for segment `k`: read from whatever entry stands at the old index by then. */
  ghost function FallbackWritten(c: Cache, segs: seq<string>, k: nat): bool
    requires ValidCache(c) && k < |segs| && Match(c, segs, k).Some?
  {
    var o := Match(c, segs, k).value;
    MatchOwnsItsContent(c, segs, k);
    if 0 <= o < k && !Blank(segs[o]) then Match(c, segs, o).Some? && FallbackWritten(c, segs, o)
    else c.entries[o].fallback
  }

  ghost function EntryAfter(c: Cache, segs: seq<string>, n: nat, k: int): Option<Entry>
    requires ValidCache(c) && n <= |segs|
  {
    if 0 <= k < n && !Blank(segs[k]) then
      match Match(c, segs, k)
      case None => None
      case Some(o) =>
        MatchOwnsItsContent(c, segs, k);
        Some(Entry(segs[k], c.entries[o].duration, FallbackWritten(c, segs, k)))
    else Lookup(c.entries, k)
  }

  ghost predicate StateAfter(c: Cache, segs: seq<string>, n: nat, m: Migration)
    requires ValidCache(c) && n <= |segs|
  {
    && WaitingAt(c, segs, n, m.waiting)
    && (forall k :: Lookup(m.cache.wavs, k) == WavAfter(c, segs, n, k))
    && (forall k :: Lookup(m.cache.entries, k) == EntryAfter(c, segs, n, k))
  }

  lemma TakenStep(c: Cache, segs: seq<string>, n: nat, k: int)
    requires ValidCache(c) && n < |segs|
    ensures Taken(c, segs, k, n + 1) <==> Taken(c, segs, k, n) || (n != k && Match(c, segs, n) == Some(k))
    ensures k < n ==> (LaterTaken(c, segs, k, n + 1) <==> LaterTaken(c, segs, k, n) || Match(c, segs, n) == Some(k))
  {
  }

  /** Other WAVs keep their origin when segment `n` is processed. */
  lemma OriginFrame(c: Cache, segs: seq<string>, n: nat, k: int)
    requires ValidCache(c) && n < |segs|
    requires k != n && Match(c, segs, n) != Some(k)
    ensures Origin(c, segs, n + 1, k) == Origin(c, segs, n, k)
  {
    TakenStep(c, segs, n, k);
  }

  lemma OriginFrameBlank(c: Cache, segs: seq<string>, n: nat, k: int)
    requires ValidCache(c) && n < |segs| && Blank(segs[n])
    ensures Origin(c, segs, n + 1, k) == Origin(c, segs, n, k)
  {
    TakenStep(c, segs, n, k);
  }

  /** Before its turn, an index has its own WAV or none. */
  lemma OriginAtTurn(c: Cache, segs: seq<string>, n: nat)
    requires ValidCache(c) && n < |segs|
    ensures Origin(c, segs, n, n) == if Held(c, segs, n) then Some(n) else None
  {
  }

  /** After segment `n`, nothing lies at the index it took from. */
  lemma OriginTaken(c: Cache, segs: seq<string>, n: nat)
    requires ValidCache(c) && n < |segs| && Match(c, segs, n).Some? && Match(c, segs, n) != Some(n)
    ensures Origin(c, segs, n + 1, Match(c, segs, n).value) == None
  {
    var o := Match(c, segs, n).value;
    TakenStep(c, segs, n, o);
    if 0 <= o < n && Match(c, segs, o) == Some(o) {
      MatchInjective(c, segs, o, n);
    }
  }

  /** A matched segment ends with its own WAV, or with what lay at its match's index. */
  lemma OriginOfMatched(c: Cache, segs: seq<string>, n: nat)
    requires ValidCache(c) && n < |segs| && Match(c, segs, n).Some?
    ensures Origin(c, segs, n + 1, n)
            == if Match(c, segs, n) == Some(n) || Held(c, segs, n) then Own(c, n)
               else Origin(c, segs, n, Match(c, segs, n).value)
  {
  }

  lemma OriginOfUnmatched(c: Cache, segs: seq<string>, n: nat)
    requires ValidCache(c) && n < |segs| && !Blank(segs[n]) && Match(c, segs, n) == None
    ensures Origin(c, segs, n + 1, n) == None
  {
  }

  /** An index that its own segment matches is never taken. */
  lemma OwnMatchHeld(c: Cache, segs: seq<string>, n: nat)
    requires ValidCache(c) && n < |segs| && Match(c, segs, n) == Some(n)
    ensures Held(c, segs, n) <==> n in c.wavs
  {
    OnlyTaker(c, segs, n, n);
  }

  /** The WAV files after a matched segment that does not raise. */
  lemma WavStep(c: Cache, segs: seq<string>, n: nat, k: int)
    requires ValidCache(c) && n < |segs| && Match(c, segs, n).Some?
    ensures WavAfter(c, segs, n + 1, k) == (
              var o := Match(c, segs, n).value;
              if o == n then WavAfter(c, segs, n, k)
              else if k == o then None
              else if k == n && !Held(c, segs, n) then WavAfter(c, segs, n, o)
              else WavAfter(c, segs, n, k))
  {
    if k == n {
      OriginOfMatched(c, segs, n);
      OriginAtTurn(c, segs, n);
      if Match(c, segs, n) == Some(n) { OwnMatchHeld(c, segs, n); }
    } else if Match(c, segs, n) == Some(k) {
      OriginTaken(c, segs, n);
    } else {
      OriginFrame(c, segs, n, k);
    }
  }

  lemma EntryStep(c: Cache, segs: seq<string>, n: nat, k: int)
    requires ValidCache(c) && n < |segs|
    ensures k != n ==> EntryAfter(c, segs, n + 1, k) == EntryAfter(c, segs, n, k)
    ensures Match(c, segs, n).Some? ==>
              var e := EntryAfter(c, segs, n, Match(c, segs, n).value);
              FallbackWritten(c, segs, n) == (e.Some? && e.value.fallback)
  {
    if Match(c, segs, n).Some? {
      MatchOwnsItsContent(c, segs, n);
    }
  }

  /** The closed forms hold after every step, and the loop stops exactly where RaisesAt says. */
  lemma StateStep(c: Cache, segs: seq<string>, n: nat, m: Migration)
    requires ValidCache(c) && n < |segs|
    requires !m.raised && StateAfter(c, segs, n, m)
    ensures var m' := MatchSegment(m, n, segs[n]);
            && m'.raised == RaisesAt(c, segs, n)
            && (!m'.raised ==> StateAfter(c, segs, n + 1, m'))
            && (m'.raised ==> m'.cache == m.cache)
  {
    WaitingStep(c, segs, n, m);
    if Blank(segs[n]) {
      StateStepBlank(c, segs, n, m);
    } else {
      WaitingHead(c, segs, n, m.waiting);
      if segs[n] in m.waiting {
        StateStepMatched(c, segs, n, m);
      } else {
        StateStepUnmatched(c, segs, n, m);
      }
    }
  }

  lemma StateStepBlank(c: Cache, segs: seq<string>, n: nat, m: Migration)
    requires ValidCache(c) && n < |segs| && Blank(segs[n])
    requires !m.raised && StateAfter(c, segs, n, m)
    ensures forall k :: Lookup(m.cache.wavs, k) == WavAfter(c, segs, n + 1, k)
    ensures forall k :: Lookup(m.cache.entries, k) == EntryAfter(c, segs, n + 1, k)
  {
    forall k
      ensures Lookup(m.cache.wavs, k) == WavAfter(c, segs, n + 1, k)
      ensures Lookup(m.cache.entries, k) == EntryAfter(c, segs, n + 1, k)
    {
      OriginFrameBlank(c, segs, n, k);
    }
  }

  lemma StateStepUnmatched(c: Cache, segs: seq<string>, n: nat, m: Migration)
    requires ValidCache(c) && n < |segs| && !Blank(segs[n]) && segs[n] !in m.waiting
    requires !m.raised && StateAfter(c, segs, n, m) && Match(c, segs, n) == None
    ensures var m' := MatchSegment(m, n, segs[n]);
            && (forall k :: Lookup(m'.cache.wavs, k) == WavAfter(c, segs, n + 1, k))
            && (forall k :: Lookup(m'.cache.entries, k) == EntryAfter(c, segs, n + 1, k))
  {
    OriginOfUnmatched(c, segs, n);
    forall k
      ensures var m' := MatchSegment(m, n, segs[n]);
              && Lookup(m'.cache.wavs, k) == WavAfter(c, segs, n + 1, k)
              && Lookup(m'.cache.entries, k) == EntryAfter(c, segs, n + 1, k)
    {
      assert Lookup(m.cache.wavs, k) == WavAfter(c, segs, n, k);
      assert Lookup(m.cache.entries, k) == EntryAfter(c, segs, n, k);
      if k != n {
        OriginFrame(c, segs, n, k);
        EntryStep(c, segs, n, k);
      }
    }
  }

  lemma WavAfterIsSome(c: Cache, segs: seq<string>, n: nat, k: int)
    requires ValidCache(c) && n <= |segs|
    ensures WavAfter(c, segs, n, k).Some? <==> Origin(c, segs, n, k).Some?
  {
    OriginIsOnDisk(c, segs, n, k);
  }

  lemma StateStepMatched(c: Cache, segs: seq<string>, n: nat, m: Migration)
    requires ValidCache(c) && n < |segs| && !Blank(segs[n]) && segs[n] in m.waiting
    requires !m.raised && StateAfter(c, segs, n, m)
    requires Match(c, segs, n) == Some(m.waiting[segs[n]][0].0)
    requires m.waiting[segs[n]][0] == Item(c.entries, m.waiting[segs[n]][0].0)
    ensures var m' := MatchSegment(m, n, segs[n]);
            && m'.raised == RaisesAt(c, segs, n)
            && (m'.raised ==> m'.cache == m.cache)
            && (!m'.raised ==> forall k :: Lookup(m'.cache.wavs, k) == WavAfter(c, segs, n + 1, k))
            && (!m'.raised ==> forall k :: Lookup(m'.cache.entries, k) == EntryAfter(c, segs, n + 1, k))
  {
    var o := Match(c, segs, n).value;
    assert Lookup(m.cache.wavs, o) == WavAfter(c, segs, n, o);
    assert Lookup(m.cache.wavs, n) == WavAfter(c, segs, n, n);
    OriginAtTurn(c, segs, n);
    WavAfterIsSome(c, segs, n, o);
    if !MatchSegment(m, n, segs[n]).raised {
      MatchedWavs(c, segs, n, m);
      MatchedEntries(c, segs, n, m);
    }
  }

  lemma MatchedWavs(c: Cache, segs: seq<string>, n: nat, m: Migration)
    requires ValidCache(c) && n < |segs| && !Blank(segs[n]) && segs[n] in m.waiting && m.waiting[segs[n]] != []
    requires !m.raised && forall k :: Lookup(m.cache.wavs, k) == WavAfter(c, segs, n, k)
    requires NoneEmptyWaits(m.waiting) && Match(c, segs, n) == Some(m.waiting[segs[n]][0].0)
    requires !MatchSegment(m, n, segs[n]).raised
    ensures forall k :: Lookup(MatchSegment(m, n, segs[n]).cache.wavs, k) == WavAfter(c, segs, n + 1, k)
  {
    var m', o := MatchSegment(m, n, segs[n]), Match(c, segs, n).value;
    assert Lookup(m.cache.wavs, o) == WavAfter(c, segs, n, o);
    assert Lookup(m.cache.wavs, n) == WavAfter(c, segs, n, n);
    OriginAtTurn(c, segs, n);
    OriginIsOnDisk(c, segs, n, n);
    forall k
      ensures Lookup(m'.cache.wavs, k) == WavAfter(c, segs, n + 1, k)
    {
      WavStep(c, segs, n, k);
      assert Lookup(m.cache.wavs, k) == WavAfter(c, segs, n, k);
    }
  }

  lemma MatchedEntries(c: Cache, segs: seq<string>, n: nat, m: Migration)
    requires ValidCache(c) && n < |segs| && !Blank(segs[n]) && segs[n] in m.waiting && m.waiting[segs[n]] != []
    requires !m.raised && forall k :: Lookup(m.cache.entries, k) == EntryAfter(c, segs, n, k)
    requires NoneEmptyWaits(m.waiting) && Match(c, segs, n) == Some(m.waiting[segs[n]][0].0)
    requires m.waiting[segs[n]][0] == Item(c.entries, m.waiting[segs[n]][0].0)
    requires !MatchSegment(m, n, segs[n]).raised
    ensures forall k :: Lookup(MatchSegment(m, n, segs[n]).cache.entries, k) == EntryAfter(c, segs, n + 1, k)
  {
    var m', o := MatchSegment(m, n, segs[n]), Match(c, segs, n).value;
    assert Lookup(m.cache.entries, o) == EntryAfter(c, segs, n, o);
    EntryStep(c, segs, n, o);
    forall k
      ensures Lookup(m'.cache.entries, k) == EntryAfter(c, segs, n + 1, k)
    {
      EntryStep(c, segs, n, k);
      assert Lookup(m.cache.entries, k) == EntryAfter(c, segs, n, k);
    }
  }

  /** Segment `i` is the first at which the loop raises. */
  ghost predicate FirstRaise(c: Cache, segs: seq<string>, i: nat)
    requires ValidCache(c)
  {
    i < |segs| && RaisesAt(c, segs, i) && forall j: nat :: j < i ==> !RaisesAt(c, segs, j)
  }

  ghost predicate QuietBefore(c: Cache, segs: seq<string>, n: nat)
    requires ValidCache(c) && n <= |segs|
  {
    forall i: nat :: i < n ==> !RaisesAt(c, segs, i)
  }

  /** Without a raise the closed forms after `n` segments, else those before the first one that raised. */
  ghost predicate StateOrRaised(c: Cache, segs: seq<string>, n: nat, m: Migration)
    requires ValidCache(c) && n <= |segs|
  {
    && (m.raised <==> !QuietBefore(c, segs, n))
    && (!m.raised ==> StateAfter(c, segs, n, m))
    && (m.raised ==> exists r: nat :: FirstRaise(c, segs, r) && r < n && LeavesWavs(c, segs, r, m))
  }

  ghost predicate LeavesWavs(c: Cache, segs: seq<string>, r: nat, m: Migration)
    requires ValidCache(c) && r <= |segs|
  {
    forall k :: Lookup(m.cache.wavs, k) == WavAfter(c, segs, r, k)
  }

  lemma StateOrRaisedStep(c: Cache, segs: seq<string>, n: nat, m: Migration)
    requires ValidCache(c) && n < |segs|
    requires forall t :: t in m.waiting ==> m.waiting[t] != []
    requires StateOrRaised(c, segs, n, m)
    ensures StateOrRaised(c, segs, n + 1, MatchSegment(m, n, segs[n]))
  {
    assert QuietBefore(c, segs, n + 1) <==> QuietBefore(c, segs, n) && !RaisesAt(c, segs, n);
    if m.raised {
      var r: nat :| FirstRaise(c, segs, r) && r < n && LeavesWavs(c, segs, r, m);
      assert LeavesWavs(c, segs, r, MatchSegment(m, n, segs[n]));
    } else {
      StateStep(c, segs, n, m);
      var m' := MatchSegment(m, n, segs[n]);
      if m'.raised {
        assert FirstRaise(c, segs, n) && LeavesWavs(c, segs, n, m');
      }
    }
  }

  lemma {:induction false} StateInv(c: Cache, segs: seq<string>, n: nat)
    requires ValidCache(c) && n <= |segs|
    ensures StateOrRaised(c, segs, n, MatchSegments(Start(c), segs, n))
  {
    if n == 0 {
      StateAtStart(c, segs);
    } else {
      StateInv(c, segs, n - 1);
      StateOrRaisedStep(c, segs, n - 1, MatchSegments(Start(c), segs, n - 1));
    }
  }

  lemma StateAtStart(c: Cache, segs: seq<string>)
    requires ValidCache(c)
    ensures StateOrRaised(c, segs, 0, MatchSegments(Start(c), segs, 0))
  {
    WaitingAtStart(c, segs);
  }

  // ----- The final state -----

  lemma {:induction false} AskedIsMatched(c: Cache, segs: seq<string>, n: nat, text: string, q: nat) returns (j: nat)
    requires ValidCache(c) && n <= |segs|
    requires q < |KeysWith(c.keys, c.entries, text)| && q < Asked(segs, n, text)
    ensures j < n && Match(c, segs, j) == Some(KeysWith(c.keys, c.entries, text)[q])
  {
    if q < Asked(segs, n - 1, text) {
      j := AskedIsMatched(c, segs, n - 1, text, q);
    } else {
      j := n - 1;
    }
  }

  ghost predicate Matched(c: Cache, segs: seq<string>, k: int)
    requires ValidCache(c)
  {
    exists j: nat :: j < |segs| && Match(c, segs, j) == Some(k)
  }

  lemma MatchPlace(c: Cache, segs: seq<string>, i: nat, k: int, text: string)
    requires ValidCache(c) && i < |segs| && segs[i] == text && Match(c, segs, i) == Some(k)
    ensures var ks := KeysWith(c.keys, c.entries, text);
            Asked(segs, i, text) < |ks| && ks[Asked(segs, i, text)] == k
    ensures Asked(segs, i + 1, text) == Asked(segs, i, text) + 1
  {
  }

  lemma MatchedHasRank(c: Cache, segs: seq<string>, k: int, q: nat, i: nat, text: string)
    requires ValidCache(c) && i < |segs| && segs[i] == text && Match(c, segs, i) == Some(k)
    requires q < |KeysWith(c.keys, c.entries, text)| && KeysWith(c.keys, c.entries, text)[q] == k
    ensures q < Asked(segs, |segs|, text)
  {
    MatchPlace(c, segs, i, k, text);
    PlaceIsUnique(c, text, q, Asked(segs, i, text), k);
    AskedMonotone(segs, i + 1, |segs|, text);
  }

  lemma PlaceIsUnique(c: Cache, text: string, q: nat, r: nat, k: int)
    requires ValidCache(c) && q < |KeysWith(c.keys, c.entries, text)| && r < |KeysWith(c.keys, c.entries, text)|
    requires KeysWith(c.keys, c.entries, text)[q] == k && KeysWith(c.keys, c.entries, text)[r] == k
    ensures q == r
  {
    KeysWithDistinct(c.keys, c.entries, text);
  }

  lemma MatchedByRank(c: Cache, segs: seq<string>, k: int, q: nat)
    requires ValidCache(c) && k in c.entries
    requires var ks := KeysWith(c.keys, c.entries, c.entries[k].content); q < |ks| && ks[q] == k
    ensures Matched(c, segs, k) <==> q < Asked(segs, |segs|, c.entries[k].content)
  {
    var text := c.entries[k].content;
    if Matched(c, segs, k) {
      var i: nat :| i < |segs| && Match(c, segs, i) == Some(k);
      MatchOwnsItsContent(c, segs, i);
      MatchedHasRank(c, segs, k, q, i, text);
    } else if q < Asked(segs, |segs|, text) {
      var j := AskedIsMatched(c, segs, |segs|, text, q);
    }
  }

  lemma WaitingByRank(c: Cache, segs: seq<string>, w: Waiting, k: int, q: nat)
    requires ValidCache(c) && WaitingAt(c, segs, |segs|, w) && k in c.entries && c.entries[k].content != ""
    requires var ks := KeysWith(c.keys, c.entries, c.entries[k].content); q < |ks| && ks[q] == k
    ensures k in Unmatched(w) <==> Asked(segs, |segs|, c.entries[k].content) <= q
  {
    var text := c.entries[k].content;
    var ks, r := KeysWith(c.keys, c.entries, text), Asked(segs, |segs|, text);
    assert Waits(w, text) == Left(c, segs, |segs|, text);
    if r <= q {
      assert w[text][q - r].0 == k;
    }
    if k in Unmatched(w) {
      var t, j :| t in w && 0 <= j < |w[t]| && w[t][j].0 == k;
      WaitingHolds(c, segs, w, t, j);
      KeysWithDistinct(c.keys, c.entries, text);
    }
  }

  lemma WaitingHolds(c: Cache, segs: seq<string>, w: Waiting, t: string, j: nat)
    requires ValidCache(c) && WaitingAt(c, segs, |segs|, w) && t in w && j < |w[t]|
    ensures var kt, rt := KeysWith(c.keys, c.entries, t), Asked(segs, |segs|, t);
            && rt + j < |kt| && kt[rt + j] == w[t][j].0
            && w[t][j].0 in c.entries && c.entries[w[t][j].0].content == t
  {
    var kt, rt := KeysWith(c.keys, c.entries, t), Asked(segs, |segs|, t);
    assert Waits(w, t) == Left(c, segs, |segs|, t);
    assert kt[rt + j] in kt;
  }

  lemma WaitingIsUnmatched(c: Cache, segs: seq<string>, w: Waiting, k: int)
    requires ValidCache(c) && WaitingAt(c, segs, |segs|, w) && k in c.entries
    ensures k in Unmatched(w) <==> c.entries[k].content != "" && !Matched(c, segs, k)
  {
    KeysWithComplete(c.keys, c.entries, k);
    var ks := KeysWith(c.keys, c.entries, c.entries[k].content);
    var q :| 0 <= q < |ks| && ks[q] == k;
    MatchedByRank(c, segs, k, q);
    if c.entries[k].content != "" {
      WaitingByRank(c, segs, w, k, q);
    } else if k in Unmatched(w) {
      var t, j :| t in w && 0 <= j < |w[t]| && w[t][j].0 == k;
      WaitingHolds(c, segs, w, t, j);
    }
  }

  /** An old entry that no segment asks for. */
  ghost predicate Stale(c: Cache, segs: seq<string>, k: int)
    requires ValidCache(c)
  {
    k in c.entries && c.entries[k].content != "" && !Matched(c, segs, k)
  }

  /** The indices still waiting at the end are the stale ones. */
  lemma WaitingAreStale(c: Cache, segs: seq<string>, w: Waiting)
    requires ValidCache(c) && WaitingAt(c, segs, |segs|, w)
    ensures forall k :: k in Unmatched(w) <==> Stale(c, segs, k)
  {
    forall k
      ensures k in Unmatched(w) <==> Stale(c, segs, k)
    {
      if k in c.entries {
        WaitingIsUnmatched(c, segs, w, k);
      } else if k in Unmatched(w) {
        var t, j :| t in w && 0 <= j < |w[t]| && w[t][j].0 == k;
        WaitingHolds(c, segs, w, t, j);
      }
    }
  }

  /** A stale index whose entry the loop has popped has no WAV either. */
  lemma PoppedHasNoWav(c: Cache, segs: seq<string>, k: int)
    requires ValidCache(c) && Stale(c, segs, k) && EntryAfter(c, segs, |segs|, k) == None
    ensures WavAfter(c, segs, |segs|, k) == None
  {
  }

  ghost predicate SweptTo(c: Cache, segs: seq<string>, r: Cache)
    requires ValidCache(c)
  {
    forall k ::
      && Lookup(r.wavs, k) == (if Stale(c, segs, k) then None else WavAfter(c, segs, |segs|, k))
      && Lookup(r.entries, k) == (if Stale(c, segs, k) then None else EntryAfter(c, segs, |segs|, k))
  }

  lemma SweepLeaves(c: Cache, segs: seq<string>, m: Migration)
    requires ValidCache(c) && !m.raised && StateAfter(c, segs, |segs|, m)
    ensures SweptTo(c, segs, Sweep(m.cache, Unmatched(m.waiting)))
  {
    WaitingAreStale(c, segs, m.waiting);
    var r := Sweep(m.cache, Unmatched(m.waiting));
    forall k
      ensures Lookup(r.wavs, k) == (if Stale(c, segs, k) then None else WavAfter(c, segs, |segs|, k))
      ensures Lookup(r.entries, k) == (if Stale(c, segs, k) then None else EntryAfter(c, segs, |segs|, k))
    {
      assert Lookup(m.cache.wavs, k) == WavAfter(c, segs, |segs|, k);
      assert Lookup(m.cache.entries, k) == EntryAfter(c, segs, |segs|, k);
      assert k in Unmatched(m.waiting) <==> Stale(c, segs, k);
      if Stale(c, segs, k) && k !in m.cache.entries {
        PoppedHasNoWav(c, segs, k);
      }
    }
  }

  lemma NothingMatchesNothing(c: Cache, segs: seq<string>, i: nat)
    requires ValidCache(c) && c.keys == [] && i < |segs|
    ensures Match(c, segs, i) == None
  {
    if Match(c, segs, i).Some? {
      MatchOwnsItsContent(c, segs, i);
    }
  }

  /**
   The whole outcome in closed form, for every cache whatever files are there: which migrations raise, what
   they have done to the files by then, and every WAV and entry of the others.
   */
  lemma FinalState(c: Cache, segs: seq<string>)
    requires ValidCache(c)
    ensures var m := Migrated(c, segs);
            && (m.raised <==> exists i: nat :: i < |segs| && RaisesAt(c, segs, i))
            && (m.raised ==> exists r: nat :: FirstRaise(c, segs, r) && LeavesWavs(c, segs, r, m))
            && (!m.raised && c.keys != [] ==> SweptTo(c, segs, m.cache))
  {
    if c.keys != [] {
      StateInv(c, segs, |segs|);
      var m := MatchSegments(Start(c), segs, |segs|);
      if !m.raised {
        SweepLeaves(c, segs, m);
      }
    } else {
      forall i: nat | i < |segs|
        ensures Match(c, segs, i) == None
      {
        NothingMatchesNothing(c, segs, i);
      }
    }
  }

  // ----- Backed caches -----

  /** Every cache entry has its WAV file. */
  ghost predicate Backed(c: Cache) {
    forall k :: k in c.entries ==> k in c.wavs
  }

  /** Segment `o` came before `i`, matched nothing, and so deleted WAV `o`. */
  ghost predicate SourceGone(c: Cache, segs: seq<string>, o: int, i: nat)
    requires ValidCache(c) && i < |segs|
  {
    0 <= o < i && !Blank(segs[o]) && Match(c, segs, o) == None
  }

  /** When every entry has its WAV, a segment finds its match's own WAV, or an earlier segment has deleted it. */
  lemma BackedSource(c: Cache, segs: seq<string>, n: nat)
    requires ValidCache(c) && Backed(c) && n < |segs| && Match(c, segs, n).Some?
    ensures var o := Match(c, segs, n).value;
            Origin(c, segs, n, o) == if SourceGone(c, segs, o, n) then None else Some(o)
  {
    var o := Match(c, segs, n).value;
    MatchOwnsItsContent(c, segs, n);
    OnlyTaker(c, segs, n, n);
    if 0 <= o < n {
      OnlyTaker(c, segs, n, o);
      assert Held(c, segs, o);
      forall j: nat | o < j < n
        ensures Match(c, segs, j) != Some(o)
      {
        if Match(c, segs, j) == Some(o) { MatchInjective(c, segs, j, n); }
      }
    }
  }

  /** So it raises exactly when it finds a file in its own place and its match's WAV deleted. */
  lemma BackedRaisesIff(c: Cache, segs: seq<string>, i: nat)
    requires ValidCache(c) && Backed(c) && i < |segs|
    ensures RaisesAt(c, segs, i) <==>
              Match(c, segs, i).Some? && Match(c, segs, i).value != i
              && Held(c, segs, i) && SourceGone(c, segs, Match(c, segs, i).value, i)
  {
    if Match(c, segs, i).Some? { BackedSource(c, segs, i); }
  }
}
