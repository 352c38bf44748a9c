/**
 Which part of the source each piece plays, for both retimers: every cue, every gap between cues, what lies
 before the first and after the last, in order, with nothing left out but gaps of a millisecond or less.
 */
module Coverage {
  import opened Timeline
  import opened Retiming
  import opened GenVideo

  ghost predicate Plays(p: Piece, from: real, to: real) {
    p.start == from && p.end == to
  }

  /** What is played before cue `n` and after cue `n - 1`: the gap between them, or the 40 ms before its start. */
  ghost predicate GapPiece(p: Piece, cues: seq<Cue>, video: real, n: nat)
    requires 0 < n < |cues|
  {
    var from, to := cues[n - 1].end, cues[n].start;
    if to - from > 0.001 then Plays(p, from, Min(to, video))
    else Plays(p, Max(0.0, from - 0.04), Min(from, video))
  }

  /** The pieces up to cue `n`, that one not included, and what is played just before it. */
  ghost predicate LaidBefore(cues: seq<Cue>, stretches: seq<real>, video: real, lead: bool, n: nat, pieces: seq<Piece>)
    requires n < |cues| == |stretches|
    decreases n, 1
  {
    if n == 0 then LaidTo(cues, stretches, video, lead, 0, pieces)
    else
      (LaidTo(cues, stretches, video, lead, n, pieces) && cues[n].start - cues[n - 1].end <= 0.001)
      || (pieces != [] && GapPiece(pieces[|pieces| - 1], cues, video, n)
          && LaidTo(cues, stretches, video, lead, n, pieces[..|pieces| - 1]))
  }

  /** The pieces of the first `n` cues: what lies before the first, if `lead`, then gap and cue by turns. */
  ghost predicate LaidTo(cues: seq<Cue>, stretches: seq<real>, video: real, lead: bool, n: nat, pieces: seq<Piece>)
    requires n <= |cues| == |stretches| && cues != []
    decreases n, 0
  {
    if n == 0 then
      if lead then |pieces| == 1 && Plays(pieces[0], 0.0, Min(cues[0].start, video)) else pieces == []
    else
      pieces != []
      && (var p, c := pieces[|pieces| - 1], cues[n - 1];
          Plays(p, c.start, Min(c.end, video)) && p.stretch == stretches[n - 1])
      && LaidBefore(cues, stretches, video, lead, n - 1, pieces[..|pieces| - 1])
  }

  lemma Appended<T>(s: seq<T>, x: T)
    ensures (s + [x])[..|s + [x]| - 1] == s && (s + [x])[|s + [x]| - 1] == x
  {
  }

  lemma CueLaid(cues: seq<Cue>, stretches: seq<real>, video: real, lead: bool, n: nat, pieces: seq<Piece>, p: Piece)
    requires n < |cues| == |stretches| && LaidBefore(cues, stretches, video, lead, n, pieces)
    requires Plays(p, cues[n].start, Min(cues[n].end, video)) && p.stretch == stretches[n]
    ensures LaidTo(cues, stretches, video, lead, n + 1, pieces + [p])
  {
    Appended(pieces, p);
  }

  /** The gap step of both retimers. */
  lemma GapLaid(cues: seq<Cue>, stretches: seq<real>, video: real, lead: bool, n: nat, t: Track, adjStart: real)
    requires 0 < n < |cues| == |stretches| && LaidTo(cues, stretches, video, lead, n, t.pieces)
    ensures LaidBefore(cues, stretches, video, lead, n,
                       GapStep(t, cues[n - 1].end, cues[n].start, adjStart, video).pieces)
  {
    var r := GapStep(t, cues[n - 1].end, cues[n].start, adjStart, video);
    if r.pieces != t.pieces { Appended(t.pieces, r.pieces[|t.pieces|]); }
  }

  // ----- The audio side -----

  function ShiftAll(orig: seq<Cue>, offset: real): (r: seq<Cue>)
    ensures |r| == |orig|
  {
    seq(|orig|, i requires 0 <= i < |orig| => Shifted(orig[i], offset))
  }

  /** Stretched to the adjusted length, at least once and at most tenfold. */
  function Stretch(length: real, wanted: real): real {
    if length <= 0.0 then 1.0
    else if wanted <= length then 1.0 else if wanted >= 10.0 * length then 10.0 else wanted / length
  }

  lemma QuotientAtLeast(wanted: real, length: real, k: real)
    requires length > 0.0
    ensures wanted / length >= k <==> wanted >= k * length
    ensures wanted / length <= k <==> wanted <= k * length
  {
    var q := wanted / length;
    assert q * length == wanted;
    assert q * length - k * length == (q - k) * length;
    assert q > k ==> (q - k) * length > 0.0;
    assert q < k ==> (q - k) * length < 0.0;
  }

  lemma StretchIs(length: real, wanted: real)
    ensures CueStretch(length, wanted) == Stretch(length, wanted)
  {
    if length > 0.0 {
      QuotientAtLeast(wanted, length, 1.0);
      QuotientAtLeast(wanted, length, 10.0);
    }
  }

  /** On the audio side a cue cut by the end of the video is stretched to the whole adjusted length. */
  function AudioStretches(orig: seq<Cue>, adj: seq<Cue>, video: real): (r: seq<real>)
    requires |orig| == |adj|
    ensures |r| == |orig|
  {
    seq(|orig|, i requires 0 <= i < |orig| =>
      Stretch(Min(orig[i].end, video) - orig[i].start, adj[i].end - adj[i].start))
  }

  ghost predicate AudioLaid(orig: seq<Cue>, adj: seq<Cue>, video: real, offset: real, n: nat, pieces: seq<Piece>)
    requires n <= |orig| == |adj| && orig != []
  {
    var cues := ShiftAll(orig, offset);
    LaidTo(cues, AudioStretches(cues, adj, video), video, adj[0].start > 0.0 && cues[0].start > 0.0, n, pieces)
  }

  lemma {:induction false} CuesLaid(orig: seq<Cue>, adj: seq<Cue>, video: real, offset: real, n: nat)
    requires n <= |orig| == |adj| && orig != []
    ensures AudioLaid(orig, adj, video, offset, n, AfterCues(orig, adj, video, offset, n).pieces)
  {
    if n > 0 {
      CuesLaid(orig, adj, video, offset, n - 1);
      OneCueLaid(orig, adj, video, offset, n - 1);
    }
  }

  lemma OneCueLaid(orig: seq<Cue>, adj: seq<Cue>, video: real, offset: real, n: nat)
    requires n < |orig| == |adj| && AudioLaid(orig, adj, video, offset, n, AfterCues(orig, adj, video, offset, n).pieces)
    ensures AudioLaid(orig, adj, video, offset, n + 1, AfterCues(orig, adj, video, offset, n + 1).pieces)
  {
    var cues := ShiftAll(orig, offset);
    AudioGapLaid(orig, adj, video, offset, n);
    StretchIs(Min(cues[n].end, video) - cues[n].start, Length(adj[n]));
    var stretches := AudioStretches(cues, adj, video);
    CueLaid(cues, stretches, video, adj[0].start > 0.0 && cues[0].start > 0.0, n,
            BeforeCue(orig, adj, video, offset, n).pieces,
            Piece(cues[n].start, Min(cues[n].end, video), stretches[n]));
  }

  lemma AudioGapLaid(orig: seq<Cue>, adj: seq<Cue>, video: real, offset: real, n: nat)
    requires n < |orig| == |adj| && AudioLaid(orig, adj, video, offset, n, AfterCues(orig, adj, video, offset, n).pieces)
    ensures var cues := ShiftAll(orig, offset);
            LaidBefore(cues, AudioStretches(cues, adj, video), video, adj[0].start > 0.0 && cues[0].start > 0.0, n,
                       BeforeCue(orig, adj, video, offset, n).pieces)
  {
    var cues := ShiftAll(orig, offset);
    if n > 0 {
      GapLaid(cues, AudioStretches(cues, adj, video), video, adj[0].start > 0.0 && cues[0].start > 0.0, n,
              AfterCues(orig, adj, video, offset, n), adj[n].start);
    }
  }

  /**
   For all inputs: the pieces are the lead, the kept cues at their shifted places with the gaps between them,
   and what follows the last cue at its natural speed.
   */
  lemma DefsLaid(orig: seq<Cue>, adj: seq<Cue>, video: real, offset: real) returns (pieces: seq<Piece>)
    requires |orig| == |adj| > 0
    ensures AudioLaid(orig, adj, video, offset, Kept(orig, video, offset, |orig|), pieces)
    ensures var last := orig[|orig| - 1].end - offset;
            SegmentDefs(orig, adj, video, offset) == pieces + if last < video then [Piece(last, video, 1.0)] else []
  {
    pieces := AfterCues(orig, adj, video, offset, Kept(orig, video, offset, |orig|)).pieces;
    CuesLaid(orig, adj, video, offset, Kept(orig, video, offset, |orig|));
  }

  // ----- The source in order -----

  /** Cues in order inside the source. */
  ghost predicate InOrder(cues: seq<Cue>, video: real) {
    Ordered(cues) && forall i :: 0 <= i < |cues| ==> 0.0 <= cues[i].start && cues[i].end <= video
  }

  /** Each piece starts where the one before it ended, up to 40 ms earlier or a skipped millisecond later. */
  ghost predicate Continuous(pieces: seq<Piece>) {
    forall p :: 0 <= p < |pieces| - 1 ==> Follows(pieces[p], pieces[p + 1])
  }

  ghost predicate Follows(p: Piece, q: Piece) {
    -0.04 <= q.start - p.end <= 0.001 && p.start <= p.end && q.start <= q.end
  }

  lemma ContinuousOn(pieces: seq<Piece>, p: Piece)
    requires Continuous(pieces) && (pieces != [] ==> Follows(pieces[|pieces| - 1], p))
    ensures Continuous(pieces + [p])
  {
    var all := pieces + [p];
    forall k | 0 <= k < |all| - 1
      ensures Follows(all[k], all[k + 1])
    {
      if k < |pieces| - 1 { assert Follows(pieces[k], pieces[k + 1]); }
    }
  }

  /** The first piece starts at the start of the source, or at the first cue when nothing comes before it. */
  ghost predicate StartsAt(pieces: seq<Piece>, cues: seq<Cue>, lead: bool)
    requires cues != []
  {
    pieces != [] ==> pieces[0].start == if lead then 0.0 else cues[0].start
  }

  lemma FrontLast(pieces: seq<Piece>)
    requires pieces != []
    ensures pieces == pieces[..|pieces| - 1] + [pieces[|pieces| - 1]]
  {
  }

  lemma {:induction false} LaidContinuous(cues: seq<Cue>, stretches: seq<real>, video: real, lead: bool, n: nat,
                                         pieces: seq<Piece>)
    requires InOrder(cues, video) && n <= |cues| == |stretches| && cues != []
    requires LaidTo(cues, stretches, video, lead, n, pieces)
    ensures Continuous(pieces) && StartsAt(pieces, cues, lead)
    ensures pieces != [] ==> var last := pieces[|pieces| - 1];
                             last.start <= last.end && last.end == if n == 0 then cues[0].start else cues[n - 1].end
    ensures n > 0 || lead ==> pieces != []
    decreases n, 1
  {
    if n > 0 {
      var front := pieces[..|pieces| - 1];
      FrontLast(pieces);
      BeforeContinuous(cues, stretches, video, lead, n - 1, front);
      ContinuousOn(front, pieces[|pieces| - 1]);
    }
  }

  lemma {:induction false} BeforeContinuous(cues: seq<Cue>, stretches: seq<real>, video: real, lead: bool, n: nat,
                                           pieces: seq<Piece>)
    requires InOrder(cues, video) && n < |cues| == |stretches|
    requires LaidBefore(cues, stretches, video, lead, n, pieces)
    ensures Continuous(pieces) && StartsAt(pieces, cues, lead) && (n > 0 || lead ==> pieces != [])
    ensures pieces != [] ==> var last := pieces[|pieces| - 1];
                             last.start <= last.end && 0.0 <= cues[n].start - last.end <= 0.001
    decreases n, 2
  {
    if LaidTo(cues, stretches, video, lead, n, pieces) && (n == 0 || cues[n].start - cues[n - 1].end <= 0.001) {
      LaidContinuous(cues, stretches, video, lead, n, pieces);
    } else {
      var front := pieces[..|pieces| - 1];
      FrontLast(pieces);
      LaidContinuous(cues, stretches, video, lead, n, front);
      ContinuousOn(front, pieces[|pieces| - 1]);
    }
  }

  /**
   For cues in order inside the source at any offset the pieces play the whole of it in order: from its start,
   or from the first cue when nothing is wanted before it, to its end, each piece starting where the one before
   it ended, up to 40 ms played again and a millisecond skipped.
   */
  lemma SourceInOrder(orig: seq<Cue>, adj: seq<Cue>, video: real, offset: real)
    requires |orig| == |adj| > 0 && InOrder(ShiftAll(orig, offset), video)
    requires forall i :: 0 <= i < |orig| ==> orig[i].start - offset < video
    ensures var defs, first := SegmentDefs(orig, adj, video, offset), orig[0].start - offset;
            && Continuous(defs) && defs != [] && defs[|defs| - 1].end == video
            && defs[0].start == if adj[0].start > 0.0 && first > 0.0 then 0.0 else first
  {
    var cues := ShiftAll(orig, offset);
    AllKept(orig, video, offset, |orig|);
    var pieces := DefsLaid(orig, adj, video, offset);
    LaidContinuous(cues, AudioStretches(cues, adj, video), video, adj[0].start > 0.0 && cues[0].start > 0.0,
                   |orig|, pieces);
    var last := cues[|orig| - 1].end;
    assert last == orig[|orig| - 1].end - offset;
    if last < video { ContinuousOn(pieces, Piece(last, video, 1.0)); }
  }

  lemma {:induction false} AllKept(orig: seq<Cue>, video: real, offset: real, n: nat)
    requires n <= |orig| && forall i :: 0 <= i < n ==> orig[i].start - offset < video
    ensures Kept(orig, video, offset, n) == n
  {
    if n > 0 { AllKept(orig, video, offset, n - 1); }
  }

  // ----- The video side -----

  /** The cues that are kept, cut at the end of the video. */
  function SourceCues(valid: seq<Segment>): (r: seq<Cue>)
    ensures |r| == |valid|
  {
    seq(|valid|, i requires 0 <= i < |valid| => Cue(valid[i].origStart, valid[i].origEnd))
  }

  /** The adjusted length that a cue of this `length` keeps when only `left` of it is in the video. */
  function Share(length: real, left: real, wanted: real): real
    requires length > 0.0
  {
    Max(0.0, wanted - (length - left) * Max(1.0, wanted / length))
  }

  lemma CutStretch(length: real, left: real, wanted: real)
    requires 0.0 < left < length && wanted >= 0.0
    ensures CueStretch(left, Share(length, left, wanted)) == CueStretch(length, wanted)
  {
    var q := wanted / length;
    QuotientAtLeast(wanted, length, 1.0);
    if q <= 1.0 {
      QuotientAtLeast(Max(0.0, wanted - (length - left)), left, 1.0);
    } else {
      assert q * length == wanted;
      ShareOfQuotient(length, left, q);
      assert Share(length, left, wanted) == left * q;
    }
  }

  lemma ShareOfQuotient(length: real, left: real, q: real)
    requires left > 0.0 && q > 0.0
    ensures q * length - (length - left) * q == left * q && left * q > 0.0 && (left * q) / left == q
  {
  }

  lemma CutSegment(orig: Cue, adj: Cue, video: real)
    requires orig.start < video < orig.end
    ensures var s := ClampSegment(CalculateSegment(orig, adj), video);
            && s.origStart == orig.start && s.origEnd == video && s.origLength == video - orig.start
            && s.adjLength == Share(orig.end - orig.start, video - orig.start, adj.end - adj.start)
  {
    assert orig.end - video == Length(orig) - (video - orig.start);
  }

  lemma CutCueStretch(orig: Cue, adj: Cue, video: real, s: Segment)
    requires orig.start < video < orig.end && adj.start <= adj.end
    requires s.origLength == video - orig.start
    requires s.adjLength == Share(orig.end - orig.start, video - orig.start, adj.end - adj.start)
    ensures CueStretch(s.origLength, s.adjLength) == Stretch(orig.end - orig.start, adj.end - adj.start)
  {
    CutStretch(orig.end - orig.start, video - orig.start, adj.end - adj.start);
    StretchIs(orig.end - orig.start, adj.end - adj.start);
  }

  /** Of a cue cut by the end of the video, what is left is stretched as the whole cue would have been. */
  lemma CutKeepsStretch(orig: Cue, adj: Cue, video: real)
    requires orig.start < video && adj.start <= adj.end && orig.start < orig.end
    ensures var s := ClampSegment(CalculateSegment(orig, adj), video);
            && s.origStart == orig.start && s.origEnd == Min(orig.end, video)
            && CueStretch(s.origLength, s.adjLength) == Stretch(orig.end - orig.start, adj.end - adj.start)
  {
    if orig.end > video {
      CutSegment(orig, adj, video);
      CutCueStretch(orig, adj, video, ClampSegment(CalculateSegment(orig, adj), video));
    } else {
      StretchIs(Length(orig), Length(adj));
    }
  }

  // ----- The video pieces -----

  function VideoStretches(orig: seq<Cue>, adj: seq<Cue>): (r: seq<real>)
    requires |orig| == |adj|
    ensures |r| == |orig|
  {
    seq(|orig|, i requires 0 <= i < |orig| => Stretch(orig[i].end - orig[i].start, adj[i].end - adj[i].start))
  }

  /** The kept segments are the first cues, cut at the end of the video. */
  ghost predicate KeptCues(orig: seq<Cue>, adj: seq<Cue>, video: real, valid: seq<Segment>)
    requires |orig| == |adj|
  {
    && |valid| <= |orig|
    && (|valid| < |orig| ==> orig[|valid|].start >= video)
    && forall i :: 0 <= i < |valid| ==>
         && valid[i].origStart == orig[i].start < video && valid[i].origEnd == Min(orig[i].end, video)
         && valid[i].adjStart == adj[i].start
         && CueStretch(valid[i].origLength, valid[i].adjLength) == VideoStretches(orig, adj)[i]
  }

  lemma ValidAreKept(orig: seq<Cue>, adj: seq<Cue>, video: real)
    requires |orig| == |adj| && forall i :: 0 <= i < |orig| ==> orig[i].start < orig[i].end && adj[i].start <= adj[i].end
    ensures KeptCues(orig, adj, video, ValidSegments(Segments(orig, adj), video))
  {
    var valid := ValidSegments(Segments(orig, adj), video);
    forall i | 0 <= i < |valid|
      ensures valid[i].origStart == orig[i].start < video && valid[i].origEnd == Min(orig[i].end, video)
      ensures valid[i].adjStart == adj[i].start
      ensures CueStretch(valid[i].origLength, valid[i].adjLength) == VideoStretches(orig, adj)[i]
    {
      assert valid[i] == ClampSegment(CalculateSegment(orig[i], adj[i]), video);
      CutKeepsStretch(orig[i], adj[i], video);
    }
  }

  ghost predicate VideoLaid(orig: seq<Cue>, adj: seq<Cue>, video: real, valid: seq<Segment>, n: nat, pieces: seq<Piece>)
    requires |orig| == |adj| && n <= |valid| <= |orig| && valid != []
  {
    LaidTo(SourceCues(valid), VideoStretches(orig, adj)[..|valid|], video, adj[0].start > 0.0 && orig[0].start > 0.0,
           n, pieces)
  }

  lemma {:induction false} VideoCuesLaid(orig: seq<Cue>, adj: seq<Cue>, video: real, valid: seq<Segment>, n: nat)
    requires |orig| == |adj| && KeptCues(orig, adj, video, valid) && n <= |valid| && valid != []
    ensures VideoLaid(orig, adj, video, valid, n, VideoAfter(valid, video, n).pieces)
  {
    if n > 0 {
      VideoCuesLaid(orig, adj, video, valid, n - 1);
      OneVideoCueLaid(orig, adj, video, valid, n - 1);
    }
  }

  lemma OneVideoCueLaid(orig: seq<Cue>, adj: seq<Cue>, video: real, valid: seq<Segment>, n: nat)
    requires |orig| == |adj| && KeptCues(orig, adj, video, valid) && n < |valid|
    requires VideoLaid(orig, adj, video, valid, n, VideoAfter(valid, video, n).pieces)
    ensures VideoLaid(orig, adj, video, valid, n + 1, VideoAfter(valid, video, n + 1).pieces)
  {
    var cues := SourceCues(valid);
    var stretches, lead := VideoStretches(orig, adj)[..|valid|], adj[0].start > 0.0 && orig[0].start > 0.0;
    if n > 0 { GapLaid(cues, stretches, video, lead, n, VideoAfter(valid, video, n), adj[n].start); }
    var before := VideoBefore(valid, video, n);
    assert LaidBefore(cues, stretches, video, lead, n, before.pieces);
    CueLaid(cues, stretches, video, lead, n, before.pieces,
            Piece(cues[n].start, Min(cues[n].end, video), stretches[n]));
  }

  /**
   For all cues and any adjusted lengths: the video pieces are the lead, the cues that start inside the video, cut
   at its end and each stretched by the ratio of its whole lengths, the gaps between them, and what follows.
   */
  lemma VideoPiecesLaid(orig: seq<Cue>, adj: seq<Cue>, video: real) returns (valid: seq<Segment>, pieces: seq<Piece>)
    requires |orig| == |adj| && forall i :: 0 <= i < |orig| ==> orig[i].start < orig[i].end && adj[i].start <= adj[i].end
    ensures KeptCues(orig, adj, video, valid)
    ensures valid == [] ==> VideoPieces(Segments(orig, adj), video) == []
    ensures valid != [] ==>
              var last := valid[|valid| - 1].origEnd;
              && VideoLaid(orig, adj, video, valid, |valid|, pieces)
              && VideoPieces(Segments(orig, adj), video)
                 == pieces + if last < video then [Piece(last, video, 1.0)] else []
  {
    valid := ValidSegments(Segments(orig, adj), video);
    ValidAreKept(orig, adj, video);
    pieces := VideoAfter(valid, video, |valid|).pieces;
    if valid != [] { VideoCuesLaid(orig, adj, video, valid, |valid|); }
  }

  /**
   A cue cut by the end of the video is stretched alike on both sides exactly when its adjusted length fits what
   is left of it, or is tenfold the whole cue: else the audio side takes the whole adjusted length.
   */
  lemma CutCueAgreesIff(orig: Cue, adj: Cue, video: real)
    requires orig.start < video < orig.end && adj.start <= adj.end
    ensures Stretch(video - orig.start, adj.end - adj.start) == Stretch(orig.end - orig.start, adj.end - adj.start)
       <==> adj.end - adj.start <= video - orig.start || adj.end - adj.start >= 10.0 * (orig.end - orig.start)
  {
    var left, length, wanted := video - orig.start, orig.end - orig.start, adj.end - adj.start;
    QuotientAtLeast(wanted, left, 1.0);
    QuotientAtLeast(wanted, length, 10.0);
    if left < wanted < 10.0 * length {
      var q := wanted / left;
      assert q * left == wanted;
      assert q > 1.0;
      assert q * length > q * left;
      QuotientAtLeast(wanted, length, q);
      QuotientAtLeast(wanted, left, 10.0);
    }
  }
}
