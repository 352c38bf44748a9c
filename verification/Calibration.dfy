/**
 routes/files.py: the merge of a displayed subtitle file with a standard transcript. Two indices
 walk both lists, re-anchoring at the nearest match inside a window after every mismatch.
 */
module Calibration {
  import opened Text
  import opened Sequences
  import opened Slotting

  datatype Cue = Cue(start: int, end: int, content: string)
  datatype Line = Line(start: Option<int>, end: Option<int>, content: string)

  /** `_pair_matches`, kept abstract. */
  type Matcher = (Cue, Line) -> bool

  const WALK_WINDOW := 10

  // ----- The walk -----

  /** A pair of offsets that matches and is nearer than what was found so far. */
  predicate Nearer(displayed: seq<Cue>, standard: seq<Line>, m: Matcher, di: nat, si: nat, a: nat, b: nat,
                   found: Option<(nat, nat)>) {
    && (a, b) != (0, 0) && di + a < |displayed| && si + b < |standard| && m(displayed[di + a], standard[si + b])
    && (found == None || a + b < found.value.0 + found.value.1)
  }

  /** The rows of the window before `a`, and the first `b` pairs of row `a`, have been seen. */
  function Scan(displayed: seq<Cue>, standard: seq<Line>, m: Matcher, di: nat, si: nat, a: nat, b: nat)
    : (r: Option<(nat, nat)>)
    ensures r.Some? ==> Nearer(displayed, standard, m, di, si, r.value.0, r.value.1, None)
    decreases di, si, a, b
  {
    if b > 0 then
      var found := Scan(displayed, standard, m, di, si, a, b - 1);
      if Nearer(displayed, standard, m, di, si, a, b - 1, found) then Some((a, b - 1)) else found
    else if a > 0 then Scan(displayed, standard, m, di, si, a - 1, WALK_WINDOW + 1)
    else None
  }

  function Nearest(displayed: seq<Cue>, standard: seq<Line>, m: Matcher, di: nat, si: nat): (r: Option<(nat, nat)>)
    ensures r.Some? ==> r.value != (0, 0)
                        && di + r.value.0 < |displayed| && si + r.value.1 < |standard|
                        && m(displayed[di + r.value.0], standard[si + r.value.1])
  {
    Scan(displayed, standard, m, di, si, WALK_WINDOW, WALK_WINDOW + 1)
  }

  /** A pair that matches in the window of ten cues and ten lines ahead, the present pair left out. */
  ghost predicate Candidate(displayed: seq<Cue>, standard: seq<Line>, m: Matcher, di: nat, si: nat, a: nat, b: nat) {
    && a <= 10 && b <= 10 && (a > 0 || b > 0)
    && di + a < |displayed| && si + b < |standard| && m(displayed[di + a], standard[si + b])
  }

  /** Offsets (`a`, `b`) come before (`x`, `y`): nearer, or as near with fewer cues skipped. */
  predicate Before(a: nat, b: nat, x: nat, y: nat) {
    a + b < x + y || (a + b == x + y && a <= x)
  }

  lemma {:induction false} ScanBest(displayed: seq<Cue>, standard: seq<Line>, m: Matcher, di: nat, si: nat,
                                    row: nat, column: nat, a: nat, b: nat)
    requires Candidate(displayed, standard, m, di, si, a, b)
    requires (a < row || (a == row && b < column)) && column <= 11
    ensures var r := Scan(displayed, standard, m, di, si, row, column);
            r.Some? && Before(r.value.0, r.value.1, a, b)
    decreases row, column
  {
    if column == 0 {
      ScanBest(displayed, standard, m, di, si, row - 1, WALK_WINDOW + 1, a, b);
    } else if a < row || b < column - 1 {
      ScanBest(displayed, standard, m, di, si, row, column - 1, a, b);
      ScanRows(displayed, standard, m, di, si, row, column - 1);
    } else {
      ScanRows(displayed, standard, m, di, si, row, column - 1);
    }
  }

  /** What a scan finds lies in the rows and columns that it has seen. */
  lemma {:induction false} ScanRows(displayed: seq<Cue>, standard: seq<Line>, m: Matcher, di: nat, si: nat,
                                    row: nat, column: nat)
    requires column <= 11
    ensures var r := Scan(displayed, standard, m, di, si, row, column);
            r.Some? ==> r.value.0 <= row && r.value.1 <= 10 && (r.value.0 == row ==> r.value.1 < column)
    decreases row, column
  {
    if column > 0 {
      ScanRows(displayed, standard, m, di, si, row, column - 1);
    } else if row > 0 {
      ScanRows(displayed, standard, m, di, si, row - 1, WALK_WINDOW + 1);
    }
  }

  /**
   Re-anchoring finds a pair exactly when the window holds one; it is a nearest one, and of those the one that
   skips the fewest cues.
   */
  lemma NearestIs(displayed: seq<Cue>, standard: seq<Line>, m: Matcher, di: nat, si: nat)
    ensures var r := Nearest(displayed, standard, m, di, si);
            && (r.Some? ==> Candidate(displayed, standard, m, di, si, r.value.0, r.value.1))
            && forall a: nat, b: nat :: Candidate(displayed, standard, m, di, si, a, b) ==>
                 r.Some? && Before(r.value.0, r.value.1, a, b)
  {
    ScanRows(displayed, standard, m, di, si, WALK_WINDOW, WALK_WINDOW + 1);
    forall a: nat, b: nat | Candidate(displayed, standard, m, di, si, a, b)
      ensures var r := Nearest(displayed, standard, m, di, si); r.Some? && Before(r.value.0, r.value.1, a, b)
    {
      ScanBest(displayed, standard, m, di, si, WALK_WINDOW, WALK_WINDOW + 1, a, b);
    }
  }

  // ----- Entries -----

  function PairEntry(c: Cue, l: Line): Entry {
    Entry(Some(c.start), Some(c.end), l.content, Matched)
  }

  function CueEntry(c: Cue): Entry {
    Entry(Some(c.start), Some(c.end), c.content, Displayed)
  }

  function LineEntry(l: Line): Entry {
    Entry(l.start, l.end, l.content, Standard)
  }

  function CueEntries(cues: seq<Cue>): (r: seq<Entry>)
    ensures |r| == |cues|
  {
    if cues == [] then [] else CueEntries(cues[..|cues| - 1]) + [CueEntry(cues[|cues| - 1])]
  }

  function LineEntries(lines: seq<Line>): (r: seq<Entry>)
    ensures |r| == |lines|
  {
    if lines == [] then [] else LineEntries(lines[..|lines| - 1]) + [LineEntry(lines[|lines| - 1])]
  }

  /** The cues from `di` to `dj` and then the lines from `si` to `sj`, copied. */
  function Block(displayed: seq<Cue>, standard: seq<Line>, di: nat, dj: nat, si: nat, sj: nat): (r: seq<Entry>)
    requires di <= dj <= |displayed| && si <= sj <= |standard|
    ensures |r| == dj - di + sj - si
  {
    CueEntries(displayed[di..dj]) + LineEntries(standard[si..sj])
  }

  /** What one turn of the walk copies, and where it leads. */
  datatype Turn = Turn(copied: seq<Entry>, di: nat, si: nat)

  /** A matching pair, or everything up to the nearest one; None when the window holds none. */
  function NextTurn(displayed: seq<Cue>, standard: seq<Line>, m: Matcher, di: nat, si: nat): (r: Option<Turn>)
    requires di < |displayed| && si < |standard|
    ensures r.Some? ==> di <= r.value.di <= |displayed| && si <= r.value.si <= |standard|
                        && di + si < r.value.di + r.value.si
  {
    if m(displayed[di], standard[si]) then Some(Turn([PairEntry(displayed[di], standard[si])], di + 1, si + 1))
    else
      match Nearest(displayed, standard, m, di, si)
      case None => None
      case Some((a, b)) => Some(Turn(Block(displayed, standard, di, di + a, si, si + b), di + a, si + b))
  }

  /** The entries of the walk from position (`di`, `si`) on. */
  function Rest(displayed: seq<Cue>, standard: seq<Line>, m: Matcher, di: nat, si: nat): seq<Entry>
    requires di <= |displayed| && si <= |standard|
    decreases |displayed| - di + |standard| - si
  {
    if di == |displayed| || si == |standard| then Block(displayed, standard, di, |displayed|, si, |standard|)
    else
      match NextTurn(displayed, standard, m, di, si)
      case None => Block(displayed, standard, di, |displayed|, si, |standard|)
      case Some(t) => t.copied + Rest(displayed, standard, m, t.di, t.si)
  }

  /** Outside the matched window a displayed entry is silenced and a standard entry dropped. */
  function Silenced(e: Entry): seq<Entry> {
    match e.kind
    case Matched => [e]
    case Displayed => [e.(content := "")]
    case Standard => []
  }

  /** What the window from `f` to `l` leaves of the first `i` entries. */
  function Cut(entries: seq<Entry>, f: nat, l: nat, i: nat): seq<Entry>
    requires i <= |entries|
  {
    if i == 0 then []
    else Cut(entries, f, l, i - 1) + if f <= i - 1 < l then [entries[i - 1]] else Silenced(entries[i - 1])
  }

  /** The index of the first matched entry, or the length. */
  function FirstMatch(entries: seq<Entry>): (r: nat)
    ensures r <= |entries|
    ensures forall i :: 0 <= i < r ==> entries[i].kind != Matched
    ensures r < |entries| ==> entries[r].kind == Matched
  {
    if entries == [] || entries[0].kind == Matched then 0 else 1 + FirstMatch(entries[1..])
  }

  /** One past the index of the last matched entry, or zero. */
  function LastMatch(entries: seq<Entry>): (r: nat)
    ensures r <= |entries|
    ensures forall i :: r <= i < |entries| ==> entries[i].kind != Matched
    ensures r > 0 ==> entries[r - 1].kind == Matched
  {
    if entries == [] || entries[|entries| - 1].kind == Matched then |entries|
    else LastMatch(entries[..|entries| - 1])
  }

  /** The entries cut to the window from the first to the last matched one; it is empty without a match. */
  function Windowed(entries: seq<Entry>): seq<Entry> {
    Cut(entries, FirstMatch(entries), LastMatch(entries), |entries|)
  }

  /** The merged entries before timing is slotted. */
  function Merged(displayed: seq<Cue>, standard: seq<Line>, m: Matcher): seq<Entry> {
    Windowed(Rest(displayed, standard, m, 0, 0))
  }

  // ----- The source's loops -----

  method Reanchor(displayed: seq<Cue>, standard: seq<Line>, m: Matcher, di: nat, si: nat)
    returns (found: Option<(nat, nat)>)
    ensures found == Nearest(displayed, standard, m, di, si)
  {
    found := None;
    for a := 0 to WALK_WINDOW + 1
      invariant found == if a == 0 then None else Scan(displayed, standard, m, di, si, a - 1, WALK_WINDOW + 1)
    {
      for b := 0 to WALK_WINDOW + 1
        invariant found == Scan(displayed, standard, m, di, si, a, b)
      {
        if a == 0 && b == 0 {
          continue;
        }
        if di + a >= |displayed| || si + b >= |standard| {
          continue;
        }
        if m(displayed[di + a], standard[si + b]) && (found == None || a + b < found.value.0 + found.value.1) {
          found := Some((a, b));
        }
      }
    }
  }

  method AddDisplayed(entries: seq<Entry>, displayed: seq<Cue>, from: nat, to: nat) returns (r: seq<Entry>)
    requires from <= to <= |displayed|
    ensures r == entries + CueEntries(displayed[from..to])
  {
    r := entries;
    for x := from to to
      invariant r == entries + CueEntries(displayed[from..x])
    {
      var d := displayed[x];
      r := r + [Entry(Some(d.start), Some(d.end), d.content, Displayed)];
      assert displayed[from..x + 1][..x - from] == displayed[from..x];
    }
  }

  method AddStandard(entries: seq<Entry>, standard: seq<Line>, from: nat, to: nat) returns (r: seq<Entry>)
    requires from <= to <= |standard|
    ensures r == entries + LineEntries(standard[from..to])
  {
    r := entries;
    for y := from to to
      invariant r == entries + LineEntries(standard[from..y])
    {
      var s := standard[y];
      r := r + [Entry(s.start, s.end, s.content, Standard)];
      assert standard[from..y + 1][..y - from] == standard[from..y];
    }
  }

  method AddBoth(entries: seq<Entry>, displayed: seq<Cue>, standard: seq<Line>, di: nat, dj: nat, si: nat, sj: nat)
    returns (r: seq<Entry>)
    requires di <= dj <= |displayed| && si <= sj <= |standard|
    ensures r == entries + Block(displayed, standard, di, dj, si, sj)
  {
    r := AddDisplayed(entries, displayed, di, dj);
    r := AddStandard(r, standard, si, sj);
  }

  /** The entries so far with the rest of the walk are the whole walk. */
  ghost predicate WalkedTo(whole: seq<Entry>, entries: seq<Entry>, displayed: seq<Cue>, standard: seq<Line>, m: Matcher,
                           di: nat, si: nat) {
    di <= |displayed| && si <= |standard|
    && whole == entries + Rest(displayed, standard, m, di, si)
  }

  lemma WalkStarts(displayed: seq<Cue>, standard: seq<Line>, m: Matcher)
    ensures WalkedTo(Rest(displayed, standard, m, 0, 0), [], displayed, standard, m, 0, 0)
  {
  }

  lemma WalkGoesOn(whole: seq<Entry>, entries: seq<Entry>, displayed: seq<Cue>, standard: seq<Line>, m: Matcher,
                   di: nat, si: nat, t: Turn)
    requires di < |displayed| && si < |standard| && WalkedTo(whole, entries, displayed, standard, m, di, si)
    requires NextTurn(displayed, standard, m, di, si) == Some(t)
    ensures WalkedTo(whole, entries + t.copied, displayed, standard, m, t.di, t.si)
  {
    Regroup(entries, t.copied, Rest(displayed, standard, m, t.di, t.si));
  }

  lemma WalkEnds(whole: seq<Entry>, entries: seq<Entry>, displayed: seq<Cue>, standard: seq<Line>, m: Matcher,
                 di: nat, si: nat)
    requires WalkedTo(whole, entries, displayed, standard, m, di, si)
    requires di < |displayed| && si < |standard| ==> NextTurn(displayed, standard, m, di, si) == None
    ensures whole == entries + Block(displayed, standard, di, |displayed|, si, |standard|)
  {
  }

  /** One turn of the walk. */
  method WalkOn(entries: seq<Entry>, displayed: seq<Cue>, standard: seq<Line>, m: Matcher, di: nat, si: nat)
    returns (stuck: bool, r: seq<Entry>, dj: nat, sj: nat)
    requires di < |displayed| && si < |standard|
    ensures match NextTurn(displayed, standard, m, di, si)
            case None => stuck && r == entries && dj == di && sj == si
            case Some(t) => !stuck && r == entries + t.copied && dj == t.di && sj == t.si
  {
    if m(displayed[di], standard[si]) {
      var e := Entry(Some(displayed[di].start), Some(displayed[di].end), standard[si].content, Matched);
      return false, entries + [e], di + 1, si + 1;
    }
    var found := Reanchor(displayed, standard, m, di, si);
    if found == None {
      return true, entries, di, si;
    }
    stuck, dj, sj := false, di + found.value.0, si + found.value.1;
    r := AddBoth(entries, displayed, standard, di, dj, si, sj);
  }

  /** The walk of `_align_segments`. */
  method WalkBoth(displayed: seq<Cue>, standard: seq<Line>, m: Matcher) returns (entries: seq<Entry>)
    ensures entries == Rest(displayed, standard, m, 0, 0)
  {
    entries := [];
    var di: nat, si: nat := 0, 0;
    ghost var whole := Rest(displayed, standard, m, 0, 0);
    WalkStarts(displayed, standard, m);
    while di < |displayed| && si < |standard|
      invariant WalkedTo(whole, entries, displayed, standard, m, di, si)
      decreases |displayed| - di + |standard| - si
    {
      ghost var turn := NextTurn(displayed, standard, m, di, si);
      if turn.Some? {
        WalkGoesOn(whole, entries, displayed, standard, m, di, si, turn.value);
      }
      var stuck;
      stuck, entries, di, si := WalkOn(entries, displayed, standard, m, di, si);
      if stuck {
        break;
      }
    }
    WalkEnds(whole, entries, displayed, standard, m, di, si);
    entries := AddBoth(entries, displayed, standard, di, |displayed|, si, |standard|);
  }

  ghost predicate NoMatchOutside(entries: seq<Entry>, f: nat, l: nat) {
    forall i :: 0 <= i < |entries| && !(f <= i < l) ==> entries[i].kind != Matched
  }

  /** The two searches for the first and the last matched entry. */
  method FindWindow(entries: seq<Entry>) returns (f: nat, l: nat)
    ensures f <= l <= |entries| && NoMatchOutside(entries, f, l)
    ensures f < l ==> entries[f].kind == Matched && entries[l - 1].kind == Matched
    ensures f == l ==> f == |entries|
  {
    f := 0;
    while f < |entries| && entries[f].kind != Matched
      invariant 0 <= f <= |entries| && forall i :: 0 <= i < f ==> entries[i].kind != Matched
    {
      f := f + 1;
    }
    l := |entries|;
    while l > f && entries[l - 1].kind != Matched
      invariant f <= l <= |entries| && forall i :: l <= i < |entries| ==> entries[i].kind != Matched
    {
      l := l - 1;
    }
  }

  /** The copy-only window. */
  method CopyWindow(entries: seq<Entry>, f: nat, l: nat) returns (r: seq<Entry>)
    requires f <= l <= |entries| && NoMatchOutside(entries, f, l)
    ensures r == Cut(entries, f, l, |entries|)
  {
    r := [];
    for i := 0 to |entries|
      invariant r == Cut(entries, f, l, i)
    {
      r := CopyOne(r, entries[i], f <= i < l);
    }
  }

  method CutToWindow(entries: seq<Entry>) returns (r: seq<Entry>)
    ensures r == Windowed(entries)
  {
    var f, l := FindWindow(entries);
    WindowFound(entries, f, l);
    r := CopyWindow(entries, f, l);
  }

  /** One entry of the copy: as it is inside the window, silenced or dropped outside. */
  method CopyOne(r: seq<Entry>, e: Entry, inside: bool) returns (r': seq<Entry>)
    requires !inside ==> e.kind != Matched
    ensures r' == r + if inside then [e] else Silenced(e)
  {
    r' := r;
    if !inside {
      if e.kind == Displayed {
        r' := r' + [e.(content := "")];
      }
    } else {
      r' := r' + [e];
    }
  }

  /** Two empty windows leave the same. */
  lemma {:induction false} EmptyWindows(entries: seq<Entry>, f: nat, l: nat, g: nat, k: nat, i: nat)
    requires l <= f && k <= g && i <= |entries|
    ensures Cut(entries, f, l, i) == Cut(entries, g, k, i)
  {
    if i > 0 { EmptyWindows(entries, f, l, g, k, i - 1); }
  }

  lemma WindowFound(entries: seq<Entry>, f: nat, l: nat)
    requires f <= l <= |entries| && NoMatchOutside(entries, f, l)
    requires f < l ==> entries[f].kind == Matched && entries[l - 1].kind == Matched
    requires f == l ==> f == |entries|
    ensures Cut(entries, f, l, |entries|) == Windowed(entries)
  {
    if f < l {
      assert FirstMatch(entries) == f && LastMatch(entries) == l;
    } else {
      assert FirstMatch(entries) == |entries| && LastMatch(entries) == 0;
      EmptyWindows(entries, f, l, |entries|, 0, |entries|);
    }
  }

  /** `_align_segments`. */
  method AlignSegments(displayed: seq<Cue>, standard: seq<Line>, m: Matcher) returns (r: seq<Entry>)
    ensures r == Slotted(Merged(displayed, standard, m), |Merged(displayed, standard, m)|)
  {
    var walked := WalkBoth(displayed, standard, m);
    var merged := CutToWindow(walked);
    MergedGoldTimed(displayed, standard, m);
    var entries := new Entry[|merged|](i requires 0 <= i < |merged| => merged[i]);
    assert entries[..] == merged;
    SlotStandardEntries(entries);
    r := entries[..];
  }

  lemma {:induction false} CutGoldTimed(entries: seq<Entry>, f: nat, l: nat, i: nat)
    requires GoldTimed(entries) && i <= |entries|
    ensures GoldTimed(Cut(entries, f, l, i))
  {
    if i > 0 { CutGoldTimed(entries, f, l, i - 1); }
  }

  lemma {:induction false} CueEntriesGold(cues: seq<Cue>)
    ensures GoldTimed(CueEntries(cues))
  {
    if cues != [] { CueEntriesGold(cues[..|cues| - 1]); }
  }

  lemma {:induction false} LineEntriesGold(lines: seq<Line>)
    ensures GoldTimed(LineEntries(lines))
  {
    if lines != [] { LineEntriesGold(lines[..|lines| - 1]); }
  }

  lemma GoldTimedConcat(a: seq<Entry>, b: seq<Entry>)
    requires GoldTimed(a) && GoldTimed(b)
    ensures GoldTimed(a + b)
  {
  }

  lemma BlockGold(displayed: seq<Cue>, standard: seq<Line>, di: nat, dj: nat, si: nat, sj: nat)
    requires di <= dj <= |displayed| && si <= sj <= |standard|
    ensures GoldTimed(Block(displayed, standard, di, dj, si, sj))
  {
    CueEntriesGold(displayed[di..dj]);
    LineEntriesGold(standard[si..sj]);
    GoldTimedConcat(CueEntries(displayed[di..dj]), LineEntries(standard[si..sj]));
  }

  lemma TurnGold(displayed: seq<Cue>, standard: seq<Line>, m: Matcher, di: nat, si: nat)
    requires di < |displayed| && si < |standard| && NextTurn(displayed, standard, m, di, si).Some?
    ensures GoldTimed(NextTurn(displayed, standard, m, di, si).value.copied)
  {
    var t := NextTurn(displayed, standard, m, di, si).value;
    if !m(displayed[di], standard[si]) { BlockGold(displayed, standard, di, t.di, si, t.si); }
  }

  lemma {:induction false} RestGoldTimed(displayed: seq<Cue>, standard: seq<Line>, m: Matcher, di: nat, si: nat)
    requires di <= |displayed| && si <= |standard|
    ensures GoldTimed(Rest(displayed, standard, m, di, si))
    decreases |displayed| - di + |standard| - si
  {
    if di < |displayed| && si < |standard| && NextTurn(displayed, standard, m, di, si).Some? {
      var t := NextTurn(displayed, standard, m, di, si).value;
      TurnGold(displayed, standard, m, di, si);
      RestGoldTimed(displayed, standard, m, t.di, t.si);
      GoldTimedConcat(t.copied, Rest(displayed, standard, m, t.di, t.si));
    } else {
      BlockGold(displayed, standard, di, |displayed|, si, |standard|);
    }
  }

  lemma MergedGoldTimed(displayed: seq<Cue>, standard: seq<Line>, m: Matcher)
    ensures GoldTimed(Merged(displayed, standard, m))
  {
    RestGoldTimed(displayed, standard, m, 0, 0);
    var all := Rest(displayed, standard, m, 0, 0);
    CutGoldTimed(all, FirstMatch(all), LastMatch(all), |all|);
  }
}
