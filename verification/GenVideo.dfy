/**
 gen_video.py: the second retimer, which also clamps cues to the end of the video, and the
 rendering of its pieces in batches that are joined level by level.
 */
module GenVideo {
  import opened Text
  import opened Timeline
  import opened Retiming

  datatype Segment = Segment(
    origStart: real, origEnd: real, origLength: real,
    adjStart: real, adjEnd: real, adjLength: real, factor: real)

  function CalculateSegment(orig: Cue, adj: Cue): Segment {
    Segment(orig.start, orig.end, Length(orig), adj.start, adj.end, Length(adj),
            if Length(orig) > 0.0 then Max(1.0, Length(adj) / Length(orig)) else 1.0)
  }

  function Segments(orig: seq<Cue>, adj: seq<Cue>): (r: seq<Segment>)
    requires |orig| == |adj|
    ensures |r| == |orig|
  {
    seq(|orig|, i requires 0 <= i < |orig| => CalculateSegment(orig[i], adj[i]))
  }

  method CalculateSegments(orig: seq<Cue>, adj: seq<Cue>) returns (segments: seq<Segment>)
    requires |orig| == |adj|
    ensures segments == Segments(orig, adj)
  {
    segments := [];
    for i := 0 to |orig|
      invariant segments == Segments(orig, adj)[..i]
    {
      var origLength, adjLength := orig[i].end - orig[i].start, adj[i].end - adj[i].start;
      var factor := 1.0;
      if origLength > 0.0 {
        factor := Max(1.0, adjLength / origLength);
      }
      segments := segments + [Segment(orig[i].start, orig[i].end, origLength, adj[i].start, adj[i].end, adjLength, factor)];
    }
  }

  // ----- Clamping to the video -----

  function ClampSegment(s: Segment, video: real): Segment {
    if s.origEnd > video then
      var adjEnd := Max(s.adjStart, s.adjEnd - (s.origEnd - video) * s.factor);
      s.(origEnd := video, origLength := video - s.origStart, adjEnd := adjEnd, adjLength := adjEnd - s.adjStart)
    else s
  }

  function ValidSegments(segments: seq<Segment>, video: real): (r: seq<Segment>)
    ensures |r| <= |segments|
    ensures forall i :: 0 <= i < |r| ==> segments[i].origStart < video && r[i] == ClampSegment(segments[i], video)
    ensures |r| < |segments| ==> segments[|r|].origStart >= video
  {
    if segments == [] || segments[0].origStart >= video then []
    else [ClampSegment(segments[0], video)] + ValidSegments(segments[1..], video)
  }

  // ----- The pieces -----

  function VideoCueStep(t: Track, s: Segment, video: real): Track {
    Push(t, Piece(s.origStart, Min(s.origEnd, video), CueStretch(s.origLength, s.adjLength)), s.origLength)
  }

  function VideoBefore(valid: seq<Segment>, video: real, i: nat): Track
    requires i < |valid|
    decreases i, 1
  {
    var t := VideoAfter(valid, video, i);
    if i == 0 then t else GapStep(t, valid[i - 1].origEnd, valid[i].origStart, valid[i].adjStart, video)
  }

  function VideoAfter(valid: seq<Segment>, video: real, n: nat): Track
    requires n <= |valid|
    decreases n, 0
  {
    if n == 0 then
      if valid == [] then Track([], 0.0) else LeadStep(valid[0].adjStart, valid[0].origStart, video)
    else VideoCueStep(VideoBefore(valid, video, n - 1), valid[n - 1], video)
  }

  function VideoPieces(segments: seq<Segment>, video: real): seq<Piece> {
    var valid := ValidSegments(segments, video);
    VideoAfter(valid, video, |valid|).pieces
    + if valid != [] && valid[|valid| - 1].origEnd < video
      then [Piece(valid[|valid| - 1].origEnd, video, 1.0)] else []
  }

  method ClampToVideo(segment: Segment, video: real) returns (s: Segment)
    ensures s == ClampSegment(segment, video)
  {
    s := segment;
    if s.origEnd > video {
      var excess := s.origEnd - video;
      s := s.(origEnd := video);
      s := s.(origLength := s.origEnd - s.origStart);
      s := s.(adjEnd := Max(s.adjStart, s.adjEnd - excess * s.factor));
      s := s.(adjLength := s.adjEnd - s.adjStart);
    }
  }

  /** The kept segments are determined by what they are and where they stop. */
  lemma ValidIs(segments: seq<Segment>, video: real, valid: seq<Segment>)
    requires |valid| <= |segments|
    requires forall i :: 0 <= i < |valid| ==>
               segments[i].origStart < video && valid[i] == ClampSegment(segments[i], video)
    requires |valid| < |segments| ==> segments[|valid|].origStart >= video
    ensures valid == ValidSegments(segments, video)
  {
    var r := ValidSegments(segments, video);
    assert |r| == |valid|;
  }

  method FilterSegments(segments: seq<Segment>, video: real) returns (valid: seq<Segment>)
    ensures valid == ValidSegments(segments, video)
  {
    valid := [];
    for k := 0 to |segments|
      invariant |valid| == k
      invariant forall i :: 0 <= i < k ==>
                  segments[i].origStart < video && valid[i] == ClampSegment(segments[i], video)
    {
      if segments[k].origStart >= video {
        break;
      }
      var s := ClampToVideo(segments[k], video);
      valid := valid + [s];
    }
    ValidIs(segments, video, valid);
  }

  method ProcessVideo(segments: seq<Segment>, video: real) returns (pieces: seq<Piece>)
    ensures pieces == VideoPieces(segments, video)
  {
    var valid := FilterSegments(segments, video);
    pieces := [];
    var cumul := 0.0;
    if valid != [] {
      pieces, cumul := Lead(valid[0].adjStart, valid[0].origStart, video);
    }
    for i := 0 to |valid|
      invariant Track(pieces, cumul) == VideoAfter(valid, video, i)
    {
      if i > 0 {
        pieces, cumul := AppendGap(pieces, cumul, valid[i - 1].origEnd, valid[i].origStart, valid[i].adjStart, video);
      }
      pieces, cumul := AppendSegment(pieces, cumul, valid[i], video);
    }
    if valid != [] {
      var last := valid[|valid| - 1].origEnd;
      if last < video {
        pieces := pieces + [Piece(last, video, 1.0)];
      }
    }
  }

  method AppendSegment(pieces: seq<Piece>, cumul: real, s: Segment, video: real)
    returns (pieces': seq<Piece>, cumul': real)
    ensures Track(pieces', cumul') == VideoCueStep(Track(pieces, cumul), s, video)
  {
    var stretch := if s.origLength > 0.0 then s.adjLength / s.origLength else 1.0;
    stretch := Clamp(1.0, 10.0, stretch);
    pieces' := pieces + [Piece(s.origStart, Min(s.origEnd, video), stretch)];
    cumul' := cumul + s.origLength * stretch;
  }

  // ----- The two retimers agree -----

  lemma {:induction false} AllValid(segments: seq<Segment>, video: real)
    requires forall i :: 0 <= i < |segments| ==> segments[i].origStart < video && segments[i].origEnd <= video
    ensures ValidSegments(segments, video) == segments
  {
    if segments != [] {
      AllValid(segments[1..], video);
    }
  }

  lemma {:induction false} SameTrack(orig: seq<Cue>, adj: seq<Cue>, video: real, n: nat)
    requires n <= |orig| == |adj| && |orig| > 0
    requires forall i :: 0 <= i < |orig| ==> orig[i].start < video && orig[i].end <= video
    ensures VideoAfter(Segments(orig, adj), video, n) == AfterCues(orig, adj, video, 0.0, n)
  {
    if n > 0 {
      SameTrack(orig, adj, video, n - 1);
      var segments := Segments(orig, adj);
      assert VideoBefore(segments, video, n - 1) == BeforeCue(orig, adj, video, 0.0, n - 1);
    }
  }

  /** With every cue inside the video, the audio and the video track are cut and stretched alike. */
  lemma RetimersAgree(orig: seq<Cue>, adj: seq<Cue>, video: real)
    requires |orig| == |adj| > 0
    requires forall i :: 0 <= i < |orig| ==> orig[i].start < video && orig[i].end <= video
    ensures VideoPieces(Segments(orig, adj), video) == SegmentDefs(orig, adj, video, 0.0)
  {
    AllValid(Segments(orig, adj), video);
    SameTrack(orig, adj, video, |orig|);
    KeptAll(orig, video, |orig|);
  }

  lemma {:induction false} KeptAll(orig: seq<Cue>, video: real, n: nat)
    requires n <= |orig| && forall i :: 0 <= i < n ==> orig[i].start < video
    ensures Kept(orig, video, 0.0, n) == n
  {
    if n > 0 {
      KeptAll(orig, video, n - 1);
    }
  }

  lemma {:induction false} VideoConserved(orig: seq<Cue>, adj: seq<Cue>, video: real, n: nat)
    requires |orig| == |adj| && n <= |ValidSegments(Segments(orig, adj), video)|
    ensures Conserved(VideoAfter(ValidSegments(Segments(orig, adj), video), video, n))
  {
    var valid := ValidSegments(Segments(orig, adj), video);
    if n == 0 {
      if valid != [] {
        LeadConserved(valid[0].adjStart, valid[0].origStart, video);
      }
    } else {
      VideoConserved(orig, adj, video, n - 1);
      if n > 1 {
        GapConserved(VideoAfter(valid, video, n - 1),
                     valid[n - 2].origEnd, valid[n - 1].origStart, valid[n - 1].adjStart, video);
      }
      ClampKeepsLength(CalculateSegment(orig[n - 1], adj[n - 1]), video);
      VideoCueConserved(VideoBefore(valid, video, n - 1), valid[n - 1], video);
    }
  }

  lemma ClampKeepsLength(s: Segment, video: real)
    requires s.origLength == s.origEnd - s.origStart
    ensures var c := ClampSegment(s, video); c.origLength == c.origEnd - c.origStart && c.origEnd <= video
  {
  }

  lemma VideoCueConserved(t: Track, s: Segment, video: real)
    requires Conserved(t) && s.origEnd <= video && s.origLength == s.origEnd - s.origStart
    ensures Conserved(VideoCueStep(t, s, video))
  {
    DurationAppend(t.pieces, Piece(s.origStart, Min(s.origEnd, video), CueStretch(s.origLength, s.adjLength)));
  }

  /** Whatever the timings, clamped cues included, the pieces last as long as the tracked position says. */
  lemma VideoPiecesConserved(orig: seq<Cue>, adj: seq<Cue>, video: real)
    requires |orig| == |adj|
    ensures Duration(VideoPieces(Segments(orig, adj), video)) == (
              var valid := ValidSegments(Segments(orig, adj), video);
              VideoAfter(valid, video, |valid|).position
              + if valid == [] then 0.0 else Max(0.0, video - valid[|valid| - 1].origEnd))
  {
    var valid := ValidSegments(Segments(orig, adj), video);
    VideoConserved(orig, adj, video, |valid|);
    var t := VideoAfter(valid, video, |valid|);
    assert t.pieces + [] == t.pieces;
    if valid != [] {
      TailDuration(t.pieces, valid[|valid| - 1].origEnd, video);
    }
  }

  // ----- Rendering in batches -----

  const MAX_BATCH_SEGMENTS := 42

  function Flatten<T>(files: seq<seq<T>>): seq<T> {
    if files == [] then [] else Flatten(files[..|files| - 1]) + files[|files| - 1]
  }

  lemma FlattenAppend<T>(files: seq<seq<T>>, file: seq<T>)
    ensures Flatten(files + [file]) == Flatten(files) + file
  {
    assert (files + [file])[..|files|] == files;
  }

  lemma {:induction false} FlattenConcat<T>(a: seq<seq<T>>, b: seq<seq<T>>)
    ensures Flatten(a + b) == Flatten(a) + Flatten(b)
  {
    if b == [] {
      assert a + b == a;
    } else {
      var n := |b| - 1;
      FlattenConcat(a, b[..n]);
      assert (a + b)[..|a| + n] == a + b[..n];
    }
  }

  /** One level: groups of up to 42 files become one file; a file left alone is passed on. */
  method JoinLevel<T>(files: seq<seq<T>>) returns (next: seq<seq<T>>)
    requires |files| > 1
    ensures Flatten(next) == Flatten(files)
    ensures 0 < |next| < |files| && 42 * (|next| - 1) < |files| <= 42 * |next|
  {
    next := [];
    var at := 0;
    while at < |files|
      invariant 0 <= at <= |files|
      invariant Flatten(next) == Flatten(files[..at])
      invariant at > 0 ==> 0 < |next|
      invariant |next| <= at && (at > 1 ==> |next| < at)
      invariant at <= 42 * |next| && (at < |files| ==> at == 42 * |next|) && 42 * |next| < at + 42
      invariant at == 1 ==> |files| == 1
    {
      var to := if at + MAX_BATCH_SEGMENTS < |files| then at + MAX_BATCH_SEGMENTS else |files|;
      var group := files[at..to];
      var joined := if |group| == 1 then group[0] else Flatten(group);
      assert |group| == 1 ==> Flatten(group) == group[0] by {
        if |group| == 1 {
          assert group[..0] == [];
        }
      }
      FlattenAppend(next, joined);
      FlattenConcat(files[..at], group);
      assert files[..to] == files[..at] + group;
      next := next + [joined];
      at := to;
    }
    assert files[..|files|] == files;
  }

  /** What the output file plays: None when there is nothing to render. */
  method RenderInOrder<T>(segmentData: seq<T>) returns (output: Option<seq<T>>)
    ensures segmentData == [] ==> output == None
    ensures segmentData != [] ==> output == Some(segmentData)
  {
    var files: seq<seq<T>> := [];
    var at := 0;
    while at < |segmentData|
      invariant 0 <= at <= |segmentData|
      invariant Flatten(files) == segmentData[..at]
      invariant at > 0 ==> files != []
      invariant segmentData == [] ==> files == []
    {
      var to := if at + MAX_BATCH_SEGMENTS < |segmentData| then at + MAX_BATCH_SEGMENTS else |segmentData|;
      FlattenAppend(files, segmentData[at..to]);
      files := files + [segmentData[at..to]];
      at := to;
    }
    if files == [] {
      return None;
    }
    while |files| > 1
      invariant files != [] && Flatten(files) == segmentData
      decreases |files|
    {
      files := JoinLevel(files);
    }
    assert files[..0] == [];
    output := Some(files[0]);
  }
}
