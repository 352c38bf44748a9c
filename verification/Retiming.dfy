/**
 segment_utils.py: cut the original timeline into pieces and stretch each so that every cue lands
 on its adjusted start. The arithmetic is over reals.
 */
module Retiming {
  import opened Timeline

  const SLOP := 0.04

  /** One piece of the source, from `start` to `end`, played at `stretch` times its length. */
  datatype Piece = Piece(start: real, end: real, stretch: real)

  function Clamp(lo: real, hi: real, x: real): real {
    Max(lo, Min(hi, x))
  }

  /** The pieces so far and the output position they reach. */
  datatype Track = Track(pieces: seq<Piece>, position: real)

  // ----- One cue -----

  /** Append a piece that is `length` long in the source. */
  function Push(t: Track, p: Piece, length: real): Track {
    Track(t.pieces + [p], t.position + length * p.stretch)
  }

  function LeadStep(adjStart: real, origStart: real, video: real): Track {
    if adjStart > 0.0 && origStart > 0.0 then
      Push(Track([], 0.0), Piece(0.0, Min(origStart, video), adjStart / origStart), origStart)
    else Track([], 0.0)
  }

  /** The gap before a cue: stretched to reach `adjStart`, borrowed from the slop, or skipped. */
  function GapStep(t: Track, prevEnd: real, origStart: real, adjStart: real, video: real): Track {
    var gap, needed := origStart - prevEnd, adjStart - t.position;
    if gap > 0.001 then
      Push(t, Piece(prevEnd, Min(origStart, video), Clamp(0.0, 100.0, needed / gap)), gap)
    else if needed > 0.001 then
      var from, to := Max(0.0, prevEnd - SLOP), Min(prevEnd, video);
      if to - from > 0.0 then Push(t, Piece(from, to, Clamp(0.0, 100.0, needed / (to - from))), to - from) else t
    else t
  }

  /** A cue is stretched, never squeezed. */
  function CueStretch(origLength: real, adjLength: real): real {
    Clamp(1.0, 10.0, if origLength > 0.0 then adjLength / origLength else 1.0)
  }

  function CueStep(t: Track, origStart: real, origEnd: real, adjLength: real): Track {
    Push(t, Piece(origStart, origEnd, CueStretch(origEnd - origStart, adjLength)), origEnd - origStart)
  }

  // ----- build_segment_defs -----

  function Shifted(c: Cue, offset: real): Cue {
    Cue(c.start - offset, c.end - offset)
  }

  /** How many cues start before the end of the video: the loop breaks at the first that does not. */
  function Kept(orig: seq<Cue>, video: real, offset: real, n: nat): (r: nat)
    requires n <= |orig|
    ensures r <= n
  {
    if n == 0 then 0
    else
      var k := Kept(orig, video, offset, n - 1);
      if k == n - 1 && orig[n - 1].start - offset < video then n else k
  }

  /** The track just before the piece of cue `i`. */
  function BeforeCue(orig: seq<Cue>, adj: seq<Cue>, video: real, offset: real, i: nat): Track
    requires i < |orig| == |adj|
    decreases i, 1
  {
    var t := AfterCues(orig, adj, video, offset, i);
    if i == 0 then t
    else GapStep(t, orig[i - 1].end - offset, orig[i].start - offset, adj[i].start, video)
  }

  function AfterCues(orig: seq<Cue>, adj: seq<Cue>, video: real, offset: real, n: nat): Track
    requires n <= |orig| == |adj| && |orig| > 0
    decreases n, 0
  {
    if n == 0 then LeadStep(adj[0].start, orig[0].start - offset, video)
    else
      CueStep(BeforeCue(orig, adj, video, offset, n - 1),
              orig[n - 1].start - offset, Min(orig[n - 1].end - offset, video), Length(adj[n - 1]))
  }

  function SegmentDefs(orig: seq<Cue>, adj: seq<Cue>, video: real, offset: real): seq<Piece>
    requires |orig| == |adj| > 0
  {
    var last := orig[|orig| - 1].end - offset;
    AfterCues(orig, adj, video, offset, Kept(orig, video, offset, |orig|)).pieces
    + if last < video then [Piece(last, video, 1.0)] else []
  }

  lemma {:induction false} KeptStays(orig: seq<Cue>, video: real, offset: real, i: nat, n: nat)
    requires i < n <= |orig| && Kept(orig, video, offset, i) == i && orig[i].start - offset >= video
    ensures Kept(orig, video, offset, n) == i
  {
    if i + 1 < n {
      KeptStays(orig, video, offset, i, n - 1);
    }
  }

  method AddPiece(defs: seq<Piece>, cumul: real, p: Piece, length: real) returns (defs': seq<Piece>, cumul': real)
    ensures Track(defs', cumul') == Push(Track(defs, cumul), p, length)
  {
    defs' := defs + [p];
    cumul' := cumul + length * p.stretch;
  }

  method AppendGap(defs: seq<Piece>, cumul: real, prevEnd: real, origStart: real, adjStart: real, video: real)
    returns (defs': seq<Piece>, cumul': real)
    ensures Track(defs', cumul') == GapStep(Track(defs, cumul), prevEnd, origStart, adjStart, video)
  {
    defs', cumul' := defs, cumul;
    var gap, needed := origStart - prevEnd, adjStart - cumul;
    var from, to := 0.0, 0.0;
    if gap > 0.001 {
      from, to := prevEnd, Min(origStart, video);
    } else if needed > 0.001 {
      from, to := Max(0.0, prevEnd - SLOP), Min(prevEnd, video);
      gap := to - from;
    } else {
      gap := 0.0;
    }
    if gap > 0.0 {
      defs', cumul' := AddPiece(defs, cumul, Piece(from, to, Clamp(0.0, 100.0, needed / gap)), gap);
    }
  }

  method AppendCue(defs: seq<Piece>, cumul: real, origStart: real, origEnd: real, adjLength: real)
    returns (defs': seq<Piece>, cumul': real)
    ensures Track(defs', cumul') == CueStep(Track(defs, cumul), origStart, origEnd, adjLength)
  {
    var origLength := origEnd - origStart;
    var stretch := if origLength > 0.0 then adjLength / origLength else 1.0;
    stretch := Clamp(1.0, 10.0, stretch);
    defs', cumul' := AddPiece(defs, cumul, Piece(origStart, origEnd, stretch), origLength);
  }

  method Lead(adjStart: real, origStart: real, video: real) returns (defs: seq<Piece>, cumul: real)
    ensures Track(defs, cumul) == LeadStep(adjStart, origStart, video)
  {
    defs, cumul := [], 0.0;
    if adjStart > 0.0 && origStart > 0.0 {
      defs, cumul := AddPiece(defs, cumul, Piece(0.0, Min(origStart, video), adjStart / origStart), origStart);
    }
  }

  method BuildSegmentDefs(orig: seq<Cue>, adj: seq<Cue>, video: real, offset: real) returns (defs: seq<Piece>)
    requires |orig| == |adj| > 0
    ensures defs == SegmentDefs(orig, adj, video, offset)
  {
    var cumul;
    defs, cumul := Lead(adj[0].start, orig[0].start - offset, video);
    var i := 0;
    while i < |orig|
      invariant 0 <= i <= |orig|
      invariant Kept(orig, video, offset, i) == i
      invariant Track(defs, cumul) == AfterCues(orig, adj, video, offset, i)
    {
      var origStart, origEnd := orig[i].start - offset, orig[i].end - offset;
      if origStart >= video {
        KeptStays(orig, video, offset, i, |orig|);
        break;
      }
      if origEnd > video {
        origEnd := video;
      }
      if i > 0 {
        defs, cumul := AppendGap(defs, cumul, orig[i - 1].end - offset, origStart, adj[i].start, video);
      }
      defs, cumul := AppendCue(defs, cumul, origStart, origEnd, adj[i].end - adj[i].start);
      i := i + 1;
    }
    var last := orig[|orig| - 1].end - offset;
    if last < video {
      defs := defs + [Piece(last, video, 1.0)];
    }
  }

  // ----- Conservation: the pieces last as long as the tracked position says -----

  function Duration(pieces: seq<Piece>): real {
    if pieces == [] then 0.0
    else
      var p := pieces[|pieces| - 1];
      Duration(pieces[..|pieces| - 1]) + (p.end - p.start) * p.stretch
  }

  lemma DurationAppend(pieces: seq<Piece>, p: Piece)
    ensures Duration(pieces + [p]) == Duration(pieces) + (p.end - p.start) * p.stretch
  {
    assert (pieces + [p])[..|pieces|] == pieces;
  }

  ghost predicate Conserved(t: Track) {
    Duration(t.pieces) == t.position
  }

  lemma GapConserved(t: Track, prevEnd: real, origStart: real, adjStart: real, video: real)
    requires Conserved(t) && origStart <= video
    ensures Conserved(GapStep(t, prevEnd, origStart, adjStart, video))
  {
    var r := GapStep(t, prevEnd, origStart, adjStart, video);
    if r != t {
      DurationAppend(t.pieces, r.pieces[|t.pieces|]);
    }
  }

  lemma CueConserved(t: Track, origStart: real, origEnd: real, adjLength: real)
    requires Conserved(t)
    ensures Conserved(CueStep(t, origStart, origEnd, adjLength))
  {
    DurationAppend(t.pieces, Piece(origStart, origEnd, CueStretch(origEnd - origStart, adjLength)));
  }

  lemma {:induction false} KeptInside(orig: seq<Cue>, video: real, offset: real, n: nat, i: nat)
    requires n <= |orig| && i < Kept(orig, video, offset, n)
    ensures orig[i].start - offset < video
  {
    if Kept(orig, video, offset, n) < n || i < n - 1 {
      KeptInside(orig, video, offset, n - 1, i);
    }
  }

  lemma {:induction false} CuesConserved(orig: seq<Cue>, adj: seq<Cue>, video: real, offset: real, n: nat)
    requires n <= Kept(orig, video, offset, |orig|) && |orig| == |adj| > 0
    requires Conserved(LeadStep(adj[0].start, orig[0].start - offset, video))
    ensures Conserved(AfterCues(orig, adj, video, offset, n))
  {
    if n > 0 {
      CuesConserved(orig, adj, video, offset, n - 1);
      KeptInside(orig, video, offset, |orig|, n - 1);
      if n > 1 {
        GapConserved(AfterCues(orig, adj, video, offset, n - 1),
                     orig[n - 2].end - offset, orig[n - 1].start - offset, adj[n - 1].start, video);
      }
      CueConserved(BeforeCue(orig, adj, video, offset, n - 1),
                   orig[n - 1].start - offset, Min(orig[n - 1].end - offset, video), Length(adj[n - 1]));
    }
  }

  lemma LeadConserved(adjStart: real, origStart: real, video: real)
    ensures Conserved(LeadStep(adjStart, origStart, video))
       <==> adjStart <= 0.0 || origStart <= 0.0 || origStart <= video
  {
    if adjStart > 0.0 && origStart > 0.0 {
      var p := Piece(0.0, Min(origStart, video), adjStart / origStart);
      DurationAppend([], p);
      assert [] + [p] == [p];
      if video < origStart {
        assert video * (adjStart / origStart) < origStart * (adjStart / origStart);
      }
    }
  }

  /**
   The pieces last exactly as long as the tracked position plus the trailing piece; it fails only
   when the first cue already starts past the end of the video.
   */
  lemma DefsConserved(orig: seq<Cue>, adj: seq<Cue>, video: real, offset: real)
    requires |orig| == |adj| > 0
    ensures Duration(SegmentDefs(orig, adj, video, offset))
            == AfterCues(orig, adj, video, offset, Kept(orig, video, offset, |orig|)).position
               + Max(0.0, video - (orig[|orig| - 1].end - offset))
       <==> adj[0].start <= 0.0 || orig[0].start - offset <= 0.0 || orig[0].start - offset <= video
  {
    var kept := Kept(orig, video, offset, |orig|);
    var t, last := AfterCues(orig, adj, video, offset, kept), orig[|orig| - 1].end - offset;
    TailDuration(t.pieces, last, video);
    LeadConserved(adj[0].start, orig[0].start - offset, video);
    if kept > 0 {
      KeptInside(orig, video, offset, |orig|, 0);
      CuesConserved(orig, adj, video, offset, kept);
    }
  }

  lemma TailDuration(pieces: seq<Piece>, last: real, video: real)
    ensures Duration(pieces + if last < video then [Piece(last, video, 1.0)] else [])
         == Duration(pieces) + Max(0.0, video - last)
  {
    DurationAppend(pieces, Piece(last, video, 1.0));
    assert pieces + [] == pieces;
  }
}
