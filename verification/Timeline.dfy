/**
 The speech timeline of `process_with_direct`: each cue starts where the original one did, plus the
 extra time that all earlier speech needed. Times are reals, in seconds.
 */
module Timeline {

  datatype Cue = Cue(start: real, end: real)

  function Length(c: Cue): real {
    c.end - c.start
  }

  function Max(a: real, b: real): real {
    if a >= b then a else b
  }

  function Min(a: real, b: real): real {
    if a <= b then a else b
  }

  function Abs(a: real): real {
    if a >= 0.0 then a else -a
  }

  /** Where the sound of a segment comes from: silence of the cue's length, the cache, or synthesis. */
  datatype Sound = BlankText | NonVerbal | Cached(duration: real) | Generated(raw: real)

  /** Synthesized speech that is too short is padded with silence to the length of the cue. */
  function Spoken(c: Cue, s: Sound): real {
    match s
    case BlankText => Length(c)
    case NonVerbal => Length(c)
    case Cached(d) => d
    case Generated(raw) => if raw < Length(c) then Length(c) else raw
  }

  datatype Change = Change(segment: nat, time: real, origDuration: real, newDuration: real, diff: real)

  const CHANGED_THRESHOLD := 0.05

  // ----- The specification -----

  /** The extra time that the first `n` segments needed. */
  function Offset(cues: seq<Cue>, sounds: seq<Sound>, n: nat): real
    requires n <= |cues| == |sounds|
  {
    if n == 0 then 0.0
    else Offset(cues, sounds, n - 1) + Max(0.0, Spoken(cues[n - 1], sounds[n - 1]) - Length(cues[n - 1]))
  }

  function AdjustedCue(cues: seq<Cue>, sounds: seq<Sound>, i: nat): Cue
    requires i < |cues| == |sounds|
  {
    var start := cues[i].start + Offset(cues, sounds, i);
    Cue(start, start + Spoken(cues[i], sounds[i]))
  }

  function Adjusted(cues: seq<Cue>, sounds: seq<Sound>): (r: seq<Cue>)
    requires |cues| == |sounds|
    ensures |r| == |cues|
  {
    seq(|cues|, i requires 0 <= i < |cues| => AdjustedCue(cues, sounds, i))
  }

  function Changes(cues: seq<Cue>, sounds: seq<Sound>, n: nat): seq<Change>
    requires n <= |cues| == |sounds|
  {
    if n == 0 then []
    else
      var i := n - 1;
      var orig, spoken := Length(cues[i]), Spoken(cues[i], sounds[i]);
      Changes(cues, sounds, i)
      + if Abs(spoken - orig) > CHANGED_THRESHOLD then [Change(i, cues[i].start, orig, spoken, spoken - orig)] else []
  }

  function OriginalTotal(cues: seq<Cue>): real
    requires cues != []
  {
    cues[|cues| - 1].end - cues[0].start
  }

  datatype Result =
    | Done(adjusted: seq<Cue>, changed: seq<Change>, total: real)
    | Inflated

  function Timed(cues: seq<Cue>, sounds: seq<Sound>): Result
    requires |cues| == |sounds| && cues != []
  {
    Done(Adjusted(cues, sounds), Changes(cues, sounds, |cues|),
         OriginalTotal(cues) + Offset(cues, sounds, |cues|))
  }

  // ----- The two loops -----

  /** The variables of both loops. */
  datatype Loop = Loop(adjusted: seq<Cue>, changed: seq<Change>, accumulated: real)

  /** The loop variables after `n` segments. */
  ghost predicate TimedTo(cues: seq<Cue>, sounds: seq<Sound>, n: nat, l: Loop)
    requires n <= |cues| == |sounds|
  {
    && l.accumulated == Offset(cues, sounds, n) && l.changed == Changes(cues, sounds, n)
    && l.adjusted == Adjusted(cues, sounds)[..n]
  }

  /** Loop variables `after` follow those before them by one segment with speech of this duration. */
  predicate Advanced(c: Cue, i: nat, before: Loop, duration: real, after: Loop) {
    var start, orig := c.start, c.end - c.start;
    && after.adjusted == before.adjusted + [Cue(start + before.accumulated, start + before.accumulated + duration)]
    && after.changed == (if Abs(duration - orig) > CHANGED_THRESHOLD
                         then before.changed + [Change(i, start, orig, duration, duration - orig)] else before.changed)
    && after.accumulated == if duration > orig then before.accumulated + duration - orig else before.accumulated
  }

  lemma TimedOn(cues: seq<Cue>, sounds: seq<Sound>, i: nat, before: Loop, after: Loop)
    requires i < |cues| == |sounds| && TimedTo(cues, sounds, i, before)
    requires Advanced(cues[i], i, before, Spoken(cues[i], sounds[i]), after)
    ensures TimedTo(cues, sounds, i + 1, after)
  {
    assert Adjusted(cues, sounds)[i] == AdjustedCue(cues, sounds, i);
    assert Adjusted(cues, sounds)[..i + 1] == Adjusted(cues, sounds)[..i] + [Adjusted(cues, sounds)[i]];
  }

  lemma TimedAll(cues: seq<Cue>, sounds: seq<Sound>, l: Loop)
    requires |cues| == |sounds| && cues != [] && TimedTo(cues, sounds, |cues|, l)
    ensures Timed(cues, sounds) == Done(l.adjusted, l.changed, OriginalTotal(cues) + l.accumulated)
  {
  }

  /** The loop taken when every segment is blank or a cache hit. */
  method AllCachedTimeline(cues: seq<Cue>, sounds: seq<Sound>) returns (r: Result)
    requires |cues| == |sounds| && cues != []
    requires forall s :: s in sounds ==> s.BlankText? || s.Cached?
    ensures r == Timed(cues, sounds)
  {
    var adjusted: seq<Cue>, changed: seq<Change> := [], [];
    var accumulated := 0.0;
    for i := 0 to |cues|
      invariant TimedTo(cues, sounds, i, Loop(adjusted, changed, accumulated))
    {
      ghost var before := Loop(adjusted, changed, accumulated);
      var origStart, origDuration := cues[i].start, cues[i].end - cues[i].start;
      var duration := if sounds[i].BlankText? then origDuration else sounds[i].duration;
      var newStart := origStart + accumulated;
      if Abs(duration - origDuration) > CHANGED_THRESHOLD {
        changed := changed + [Change(i, origStart, origDuration, duration, duration - origDuration)];
      }
      adjusted := adjusted + [Cue(newStart, newStart + duration)];
      if duration > origDuration {
        accumulated := accumulated + duration - origDuration;
      }
      TimedOn(cues, sounds, i, before, Loop(adjusted, changed, accumulated));
    }
    TimedAll(cues, sounds, Loop(adjusted, changed, accumulated));
    r := Done(adjusted, changed, OriginalTotal(cues) + accumulated);
  }

  /** The loop that generates what is missing; it refuses a result more than three times as long. */
  method GeneratedTimeline(cues: seq<Cue>, sounds: seq<Sound>) returns (r: Result)
    requires |cues| == |sounds| && cues != []
    ensures r == var t := Timed(cues, sounds);
                 if OriginalTotal(cues) > 0.0 && t.total / OriginalTotal(cues) > 3.0 then Inflated else t
  {
    var adjusted: seq<Cue>, changed: seq<Change> := [], [];
    var accumulated := 0.0;
    for i := 0 to |cues|
      invariant TimedTo(cues, sounds, i, Loop(adjusted, changed, accumulated))
    {
      ghost var before := Loop(adjusted, changed, accumulated);
      var origStart, origDuration := cues[i].start, cues[i].end - cues[i].start;
      var newStart := origStart + accumulated;
      if sounds[i].BlankText? || sounds[i].NonVerbal? {
        adjusted := adjusted + [Cue(newStart, newStart + origDuration)];
        TimedOn(cues, sounds, i, before, Loop(adjusted, changed, accumulated));
        continue;
      }
      var duration;
      if sounds[i].Cached? {
        duration := sounds[i].duration;
      } else {
        duration := sounds[i].raw;
        if duration < origDuration {
          duration := origDuration;
        }
      }
      if Abs(duration - origDuration) > CHANGED_THRESHOLD {
        changed := changed + [Change(i, origStart, origDuration, duration, duration - origDuration)];
      }
      adjusted := adjusted + [Cue(newStart, newStart + duration)];
      if duration > origDuration {
        accumulated := accumulated + duration - origDuration;
      }
      TimedOn(cues, sounds, i, before, Loop(adjusted, changed, accumulated));
    }
    TimedAll(cues, sounds, Loop(adjusted, changed, accumulated));
    var originalTotal := OriginalTotal(cues);
    var total := originalTotal + accumulated;
    if originalTotal > 0.0 && total / originalTotal > 3.0 {
      return Inflated;
    }
    r := Done(adjusted, changed, total);
  }

  // ----- What the timeline promises -----

  /** Cues in order that do not overlap. */
  ghost predicate Ordered(cues: seq<Cue>) {
    && (forall i :: 0 <= i < |cues| ==> cues[i].start <= cues[i].end)
    && (forall i, j :: 0 <= i < j < |cues| ==> cues[i].end <= cues[j].start)
  }

  /** The gap to the next cue grows by exactly what the speech falls short of the cue. */
  lemma GapNeverShrinks(cues: seq<Cue>, sounds: seq<Sound>, i: nat)
    requires i + 1 < |cues| == |sounds|
    ensures AdjustedCue(cues, sounds, i + 1).start - AdjustedCue(cues, sounds, i).end
         == cues[i + 1].start - cues[i].end + Max(0.0, Length(cues[i]) - Spoken(cues[i], sounds[i]))
  {
  }

  lemma {:induction false} OffsetGrows(cues: seq<Cue>, sounds: seq<Sound>, i: nat, j: nat)
    requires i < j <= |cues| == |sounds|
    ensures Offset(cues, sounds, i) + Max(0.0, Spoken(cues[i], sounds[i]) - Length(cues[i])) <= Offset(cues, sounds, j)
  {
    if i + 1 < j {
      OffsetGrows(cues, sounds, i, j - 1);
    }
  }

  /** Whatever the speech lengths, adjusted cues keep their order and never overlap. */
  lemma AdjustedOrdered(cues: seq<Cue>, sounds: seq<Sound>)
    requires |cues| == |sounds| && Ordered(cues)
    requires forall i :: 0 <= i < |cues| ==> Spoken(cues[i], sounds[i]) >= 0.0
    ensures Ordered(Adjusted(cues, sounds))
  {
    var a := Adjusted(cues, sounds);
    forall i, j | 0 <= i < j < |a|
      ensures a[i].end <= a[j].start
    {
      OffsetGrows(cues, sounds, i, j);
    }
  }

  /** The returned total is the room the adjusted cues need, padding included. */
  lemma TotalCoversSpeech(cues: seq<Cue>, sounds: seq<Sound>)
    requires |cues| == |sounds| && cues != []
    ensures Timed(cues, sounds).total
         == AdjustedCue(cues, sounds, |cues| - 1).end - AdjustedCue(cues, sounds, 0).start
            + Max(0.0, Length(cues[|cues| - 1]) - Spoken(cues[|cues| - 1], sounds[|cues| - 1]))
  {
  }

  /** Generated speech never ends before its cue would; silence has its cue's length, cached audio its own. */
  lemma LengthsAre(cues: seq<Cue>, sounds: seq<Sound>, i: nat)
    requires i < |cues| == |sounds|
    ensures var shown, cue := Adjusted(cues, sounds)[i].end - Adjusted(cues, sounds)[i].start, cues[i].end - cues[i].start;
            && (sounds[i].Generated? ==> shown >= cue && shown >= sounds[i].raw && (shown == cue || shown == sounds[i].raw))
            && (sounds[i].Cached? ==> shown == sounds[i].duration)
            && (sounds[i].BlankText? || sounds[i].NonVerbal? ==> shown == cue)
  {
  }

  /** Segment `i` changed its length by more than 0.05 s. */
  predicate IsChanged(cues: seq<Cue>, adjusted: seq<Cue>, i: nat)
    requires i < |cues| == |adjusted|
  {
    var diff := (adjusted[i].end - adjusted[i].start) - (cues[i].end - cues[i].start);
    diff > 0.05 || diff < -0.05
  }

  /** `c` tells the lengths of its segment before and after, and where it was. */
  ghost predicate TellsChange(cues: seq<Cue>, adjusted: seq<Cue>, c: Change)
    requires |cues| == |adjusted|
  {
    && c.segment < |cues| && IsChanged(cues, adjusted, c.segment)
    && c.time == cues[c.segment].start && c.origDuration == cues[c.segment].end - cues[c.segment].start
    && c.newDuration == adjusted[c.segment].end - adjusted[c.segment].start && c.diff == c.newDuration - c.origDuration
  }

  /** The changed list has one right entry for each of the first `n` segments that changed, in order, and no other. */
  ghost predicate ListsChanges(cues: seq<Cue>, adjusted: seq<Cue>, n: nat, changed: seq<Change>)
    requires n <= |cues| == |adjusted|
  {
    && (forall k :: 0 <= k < |changed| ==> TellsChange(cues, adjusted, changed[k]) && changed[k].segment < n)
    && (forall j, k :: 0 <= j < k < |changed| ==> changed[j].segment < changed[k].segment)
    && (forall i: nat :: i < n && IsChanged(cues, adjusted, i) ==> Lists(changed, i))
  }

  ghost predicate Lists(changed: seq<Change>, i: nat) {
    exists k :: 0 <= k < |changed| && changed[k].segment == i
  }

  lemma {:induction false} ChangesAreListed(cues: seq<Cue>, sounds: seq<Sound>, n: nat)
    requires n <= |cues| == |sounds|
    ensures ListsChanges(cues, Adjusted(cues, sounds), n, Changes(cues, sounds, n))
  {
    if n > 0 {
      ChangesAreListed(cues, sounds, n - 1);
      OneMoreListed(cues, sounds, n, Changes(cues, sounds, n - 1));
    }
  }

  lemma OneMoreListed(cues: seq<Cue>, sounds: seq<Sound>, n: nat, before: seq<Change>)
    requires 0 < n <= |cues| == |sounds| && before == Changes(cues, sounds, n - 1)
    requires ListsChanges(cues, Adjusted(cues, sounds), n - 1, before)
    ensures ListsChanges(cues, Adjusted(cues, sounds), n, Changes(cues, sounds, n))
  {
    var adjusted, c := Adjusted(cues, sounds), cues[n - 1];
    assert adjusted[n - 1] == AdjustedCue(cues, sounds, n - 1);
    var orig, spoken := Length(c), Spoken(c, sounds[n - 1]);
    if Abs(spoken - orig) > CHANGED_THRESHOLD {
      ListedWith(cues, adjusted, n, before, Change(n - 1, c.start, orig, spoken, spoken - orig));
    } else {
      assert Changes(cues, sounds, n) == before;
      ListedWithout(cues, adjusted, n, before);
    }
  }

  lemma ListedWithout(cues: seq<Cue>, adjusted: seq<Cue>, n: nat, before: seq<Change>)
    requires 0 < n <= |cues| == |adjusted| && ListsChanges(cues, adjusted, n - 1, before)
    requires !IsChanged(cues, adjusted, n - 1)
    ensures ListsChanges(cues, adjusted, n, before)
  {
  }

  lemma ListedWith(cues: seq<Cue>, adjusted: seq<Cue>, n: nat, before: seq<Change>, c: Change)
    requires 0 < n <= |cues| == |adjusted| && ListsChanges(cues, adjusted, n - 1, before)
    requires TellsChange(cues, adjusted, c) && c.segment == n - 1
    ensures ListsChanges(cues, adjusted, n, before + [c])
  {
    var after := before + [c];
    forall i: nat | i < n && IsChanged(cues, adjusted, i)
      ensures Lists(after, i)
    {
      if i < n - 1 {
        assert Lists(before, i);
        var k :| 0 <= k < |before| && before[k].segment == i;
        assert after[k].segment == i;
      } else {
        assert after[|before|].segment == i;
      }
    }
  }

  /** The changed list of the result. */
  lemma ChangedIsRight(cues: seq<Cue>, sounds: seq<Sound>)
    requires |cues| == |sounds| && cues != []
    ensures var t := Timed(cues, sounds); t.Done? && |t.adjusted| == |cues| && ListsChanges(cues, t.adjusted, |cues|, t.changed)
  {
    ChangesAreListed(cues, sounds, |cues|);
  }
}
