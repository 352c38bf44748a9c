/**
 The two timelines together: when the source is cut by `BuildSegmentDefs` for the cues that
 `process_with_direct` adjusted, every cue lands on its adjusted start.
 */
module Landing {
  import opened Timeline
  import opened Retiming

  /** Cues in order inside the video, each at least a millisecond long, which is the resolution of SRT. */
  ghost predicate Inside(cues: seq<Cue>, video: real) {
    && cues != [] && Ordered(cues)
    && forall i :: 0 <= i < |cues| ==> 0.0 <= cues[i].start && Length(cues[i]) >= 0.001 && cues[i].end <= video
  }

  ghost predicate SpeechLengths(cues: seq<Cue>, sounds: seq<Sound>) {
    |cues| == |sounds| && forall i :: 0 <= i < |cues| ==> Spoken(cues[i], sounds[i]) >= 0.0
  }

  /** No speech is more than ten times as long as its cue, the most a cue is stretched. */
  ghost predicate TenTimesAtMost(cues: seq<Cue>, sounds: seq<Sound>) {
    |cues| == |sounds| && forall i :: 0 <= i < |cues| ==> Spoken(cues[i], sounds[i]) <= 10.0 * Length(cues[i])
  }

  // ----- One stretch -----

  lemma Quotient(x: real, y: real)
    requires y > 0.0
    ensures y * (x / y) == x
    ensures x >= 0.0 ==> x / y >= 0.0
  {
  }

  lemma ProductMonotone(a: real, b: real, y: real)
    requires a <= b && y >= 0.0
    ensures y * a <= y * b
  {
  }

  /** A gap fills what is needed, or a hundred times its length if that is less. */
  lemma GapFill(needed: real, length: real)
    requires needed >= 0.0 && length > 0.0
    ensures length * Clamp(0.0, 100.0, needed / length) <= needed
    ensures needed <= 100.0 * length ==> length * Clamp(0.0, 100.0, needed / length) == needed
  {
    Quotient(needed, length);
    if needed <= 100.0 * length {
      if needed / length > 100.0 {
        ProductMonotone(100.0, needed / length, length);
      }
    } else {
      ProductMonotone(Clamp(0.0, 100.0, needed / length), needed / length, length);
    }
  }

  /** A cue takes its own length or its speech, whichever is longer, up to the tenfold. */
  lemma CueFill(length: real, speech: real)
    requires length > 0.0 && speech >= 0.0
    ensures length * CueStretch(length, speech) <= Max(length, speech)
    ensures speech <= 10.0 * length ==> length * CueStretch(length, speech) == Max(length, speech)
  {
    Quotient(speech, length);
    var q := speech / length;
    if q <= 1.0 {
      ProductMonotone(q, 1.0, length);
      assert CueStretch(length, speech) == 1.0;
    } else if q <= 10.0 {
      ProductMonotone(1.0, q, length);
      assert CueStretch(length, speech) == q;
    } else {
      ProductMonotone(10.0, q, length);
      assert CueStretch(length, speech) == 10.0;
    }
  }

  // ----- How far behind its adjusted time the output may be -----

  /** How much earlier the output position is than the adjusted timeline, after `n` cues. */
  function Lag(cues: seq<Cue>, sounds: seq<Sound>, video: real, n: nat): real
    requires 0 < n <= |cues| == |sounds|
  {
    cues[n - 1].end + Offset(cues, sounds, n) - AfterCues(cues, Adjusted(cues, sounds), video, 0.0, n).position
  }

  /** How much earlier than its adjusted start cue `i` is placed. */
  function Early(cues: seq<Cue>, sounds: seq<Sound>, video: real, i: nat): real
    requires i < |cues| == |sounds|
  {
    AdjustedCue(cues, sounds, i).start - BeforeCue(cues, Adjusted(cues, sounds), video, 0.0, i).position
  }

  lemma GapLag(t: Track, prevEnd: real, origStart: real, adjStart: real, video: real)
    requires 0.001 <= prevEnd <= origStart <= video
    requires origStart - prevEnd <= adjStart - t.position
    ensures var early := adjStart - GapStep(t, prevEnd, origStart, adjStart, video).position;
            && 0.0 <= early
            && (adjStart - t.position <= origStart - prevEnd + 0.001 ==> early <= 0.001)
  {
    var gap, needed := origStart - prevEnd, adjStart - t.position;
    var r := GapStep(t, prevEnd, origStart, adjStart, video);
    if gap > 0.001 {
      GapFill(needed, gap);
      assert r.position == t.position + gap * Clamp(0.0, 100.0, needed / gap);
    } else if needed > 0.001 {
      var length := Min(prevEnd, video) - Max(0.0, prevEnd - SLOP);
      GapFill(needed, length);
      assert r.position == t.position + length * Clamp(0.0, 100.0, needed / length);
    }
  }

  /** Where cue `i` is placed, given the lag of the cues before it. */
  lemma EarlyFromLag(cues: seq<Cue>, sounds: seq<Sound>, video: real, i: nat)
    requires Inside(cues, video) && SpeechLengths(cues, sounds) && i < |cues|
    requires i > 0 ==> 0.0 <= Lag(cues, sounds, video, i)
    ensures 0.0 <= Early(cues, sounds, video, i)
    ensures (i > 0 ==> Lag(cues, sounds, video, i) <= 0.001) ==> Early(cues, sounds, video, i) <= 0.001
  {
    var adj := Adjusted(cues, sounds);
    if i == 0 {
      if cues[0].start > 0.0 {
        Quotient(cues[0].start, cues[0].start);
      }
    } else {
      GapLag(AfterCues(cues, adj, video, 0.0, i), cues[i - 1].end, cues[i].start, adj[i].start, video);
    }
  }

  lemma LagFromEarly(cues: seq<Cue>, sounds: seq<Sound>, video: real, n: nat)
    requires Inside(cues, video) && SpeechLengths(cues, sounds) && 0 < n <= |cues|
    ensures Lag(cues, sounds, video, n) >= Early(cues, sounds, video, n - 1)
    ensures Spoken(cues[n - 1], sounds[n - 1]) <= 10.0 * Length(cues[n - 1]) ==>
              Lag(cues, sounds, video, n) == Early(cues, sounds, video, n - 1)
  {
    var c, spoken := cues[n - 1], Spoken(cues[n - 1], sounds[n - 1]);
    var before := BeforeCue(cues, Adjusted(cues, sounds), video, 0.0, n - 1);
    CuePosition(before, c.start, c.end, spoken);
    AdjustedLength(cues, sounds, n - 1);
    assert AfterCues(cues, Adjusted(cues, sounds), video, 0.0, n)
        == CueStep(before, c.start, c.end, spoken);
  }

  lemma CuePosition(t: Track, start: real, end: real, speech: real)
    requires start < end && speech >= 0.0
    ensures var r := CueStep(t, start, end, speech).position;
            && r <= t.position + Max(end - start, speech)
            && (speech <= 10.0 * (end - start) ==> r == t.position + Max(end - start, speech))
  {
    CueFill(end - start, speech);
  }

  lemma AdjustedLength(cues: seq<Cue>, sounds: seq<Sound>, i: nat)
    requires i < |cues| == |sounds|
    ensures Length(Adjusted(cues, sounds)[i]) == Spoken(cues[i], sounds[i])
  {
  }

  lemma {:induction false} LagBounds(cues: seq<Cue>, sounds: seq<Sound>, video: real, n: nat)
    requires Inside(cues, video) && SpeechLengths(cues, sounds) && 0 < n <= |cues|
    ensures 0.0 <= Lag(cues, sounds, video, n)
    ensures TenTimesAtMost(cues, sounds) ==> Lag(cues, sounds, video, n) <= 0.001
  {
    if n > 1 {
      LagBounds(cues, sounds, video, n - 1);
    }
    EarlyFromLag(cues, sounds, video, n - 1);
    LagFromEarly(cues, sounds, video, n);
  }

  // ----- The landing theorem -----

  lemma {:induction false} AllKept(cues: seq<Cue>, video: real, n: nat)
    requires n <= |cues| && forall i :: 0 <= i < n ==> cues[i].start - 0.0 < video
    ensures Kept(cues, video, 0.0, n) == n
  {
    if n > 0 {
      AllKept(cues, video, n - 1);
    }
  }

  lemma {:induction false} PiecesGrow(cues: seq<Cue>, adj: seq<Cue>, video: real, i: nat, n: nat)
    requires i < n <= |cues| == |adj|
    ensures AfterCues(cues, adj, video, 0.0, i + 1).pieces <= AfterCues(cues, adj, video, 0.0, n).pieces
  {
    if i + 1 < n {
      PiecesGrow(cues, adj, video, i, n - 1);
    }
  }

  /** The pieces before that of cue `i` end at the position at which it is placed. */
  lemma PositionIsDuration(cues: seq<Cue>, adj: seq<Cue>, video: real, i: nat)
    requires Inside(cues, video) && |adj| == |cues| && i < |cues|
    ensures Duration(BeforeCue(cues, adj, video, 0.0, i).pieces) == BeforeCue(cues, adj, video, 0.0, i).position
  {
    AllKept(cues, video, |cues|);
    LeadConserved(adj[0].start, cues[0].start - 0.0, video);
    CuesConserved(cues, adj, video, 0.0, i);
    if i > 0 {
      GapConserved(AfterCues(cues, adj, video, 0.0, i), cues[i - 1].end, cues[i].start, adj[i].start, video);
    }
  }

  /** The piece of cue `i` stands behind those. */
  lemma PieceStands(cues: seq<Cue>, adj: seq<Cue>, video: real, i: nat)
    requires Inside(cues, video) && |adj| == |cues| && i < |cues|
    ensures var defs, before := SegmentDefs(cues, adj, video, 0.0), BeforeCue(cues, adj, video, 0.0, i).pieces;
            |before| < |defs| && defs[..|before|] == before
            && defs[|before|].start == cues[i].start && defs[|before|].end == cues[i].end
  {
    var before := BeforeCue(cues, adj, video, 0.0, i).pieces;
    AllKept(cues, video, |cues|);
    PiecesGrow(cues, adj, video, i, |cues|);
    var defs := SegmentDefs(cues, adj, video, 0.0);
    assert AfterCues(cues, adj, video, 0.0, i + 1).pieces[..|before|] == before;
  }

  /**
   The piece of cue `i` is played from where all earlier pieces end. Whatever the speech lengths that
   is never after the adjusted start, and at most a millisecond before it if no speech is over tenfold.
   */
  lemma CueLands(cues: seq<Cue>, sounds: seq<Sound>, video: real, i: nat) returns (p: nat)
    requires Inside(cues, video) && SpeechLengths(cues, sounds) && i < |cues|
    ensures var defs := SegmentDefs(cues, Adjusted(cues, sounds), video, 0.0);
            && p < |defs| && defs[p].start == cues[i].start && defs[p].end == cues[i].end
            && Duration(defs[..p]) <= AdjustedCue(cues, sounds, i).start
            && (TenTimesAtMost(cues, sounds) ==> AdjustedCue(cues, sounds, i).start - 0.001 <= Duration(defs[..p]))
  {
    var adj := Adjusted(cues, sounds);
    if i > 0 {
      LagBounds(cues, sounds, video, i);
    }
    EarlyFromLag(cues, sounds, video, i);
    p := |BeforeCue(cues, adj, video, 0.0, i).pieces|;
    PieceStands(cues, adj, video, i);
    PositionIsDuration(cues, adj, video, i);
  }

  /** The designed length is the video's plus the extra speech time, short by at most a millisecond. */
  lemma TotalLands(cues: seq<Cue>, sounds: seq<Sound>, video: real)
    requires Inside(cues, video) && SpeechLengths(cues, sounds)
    ensures var total := Duration(SegmentDefs(cues, Adjusted(cues, sounds), video, 0.0));
            && total <= video + Offset(cues, sounds, |cues|)
            && (TenTimesAtMost(cues, sounds) ==> video + Offset(cues, sounds, |cues|) - 0.001 <= total)
  {
    LagBounds(cues, sounds, video, |cues|);
    AllKept(cues, video, |cues|);
    DefsConserved(cues, Adjusted(cues, sounds), video, 0.0);
  }
}
