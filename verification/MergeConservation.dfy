/**
 What the calibration merge keeps: every displayed cue with its timing, every standard segment
 between the first and the last matched one, both in order, and nothing else.
 */
module MergeConservation {
  import opened Text
  import opened Sequences
  import opened Slotting
  import opened Calibration

  type Time = (Option<int>, Option<int>)

  /** The timing of the displayed-based entries, in order. */
  function GoldTimes(entries: seq<Entry>): seq<Time> {
    if entries == [] then []
    else
      var e := entries[|entries| - 1];
      GoldTimes(entries[..|entries| - 1]) + if e.kind == Standard then [] else [(e.start, e.end)]
  }

  /** The text of the entries that carry a standard segment, in order. */
  function StandardTexts(entries: seq<Entry>): seq<string> {
    if entries == [] then []
    else
      var e := entries[|entries| - 1];
      StandardTexts(entries[..|entries| - 1]) + if e.kind == Displayed then [] else [e.content]
  }

  function Times(displayed: seq<Cue>): (r: seq<Time>)
    ensures |r| == |displayed|
  {
    if displayed == [] then []
    else
      var c := displayed[|displayed| - 1];
      Times(displayed[..|displayed| - 1]) + [(Some(c.start), Some(c.end))]
  }

  function Texts(standard: seq<Line>): (r: seq<string>)
    ensures |r| == |standard|
  {
    if standard == [] then [] else Texts(standard[..|standard| - 1]) + [standard[|standard| - 1].content]
  }

  lemma {:induction false} TimesAt(displayed: seq<Cue>, k: nat)
    requires k < |displayed|
    ensures Times(displayed)[k] == (Some(displayed[k].start), Some(displayed[k].end))
  {
    if k < |displayed| - 1 { TimesAt(displayed[..|displayed| - 1], k); }
  }

  lemma {:induction false} TimesConcat(a: seq<Cue>, b: seq<Cue>)
    ensures Times(a + b) == Times(a) + Times(b)
  {
    if b == [] {
      assert a + b == a;
    } else {
      TimesConcat(a, b[..|b| - 1]);
      assert (a + b)[..|a + b| - 1] == a + b[..|b| - 1];
    }
  }

  lemma {:induction false} TextsConcat(a: seq<Line>, b: seq<Line>)
    ensures Texts(a + b) == Texts(a) + Texts(b)
  {
    if b == [] {
      assert a + b == a;
    } else {
      TextsConcat(a, b[..|b| - 1]);
      assert (a + b)[..|a + b| - 1] == a + b[..|b| - 1];
    }
  }

  // ----- Both views split along concatenation -----

  lemma {:induction false} GoldTimesConcat(a: seq<Entry>, b: seq<Entry>)
    ensures GoldTimes(a + b) == GoldTimes(a) + GoldTimes(b)
  {
    if b == [] {
      assert a + b == a;
    } else {
      GoldTimesConcat(a, b[..|b| - 1]);
      AppendLast(a, b);
    }
  }

  lemma {:induction false} StandardTextsConcat(a: seq<Entry>, b: seq<Entry>)
    ensures StandardTexts(a + b) == StandardTexts(a) + StandardTexts(b)
  {
    if b == [] {
      assert a + b == a;
    } else {
      StandardTextsConcat(a, b[..|b| - 1]);
      AppendLast(a, b);
    }
  }

  lemma OneEntryViews(e: Entry)
    ensures GoldTimes([e]) == (if e.kind == Standard then [] else [(e.start, e.end)])
    ensures StandardTexts([e]) == (if e.kind == Displayed then [] else [e.content])
  {
    assert [e][..0] == [];
  }

  lemma ViewsConcat(a: seq<Entry>, b: seq<Entry>)
    ensures GoldTimes(a + b) == GoldTimes(a) + GoldTimes(b)
    ensures StandardTexts(a + b) == StandardTexts(a) + StandardTexts(b)
  {
    GoldTimesConcat(a, b);
    StandardTextsConcat(a, b);
  }

  // ----- The walk copies everything, in order -----

  /**
   The entries take the cues from `di` to `dj` and the lines from `si` to `sj` in order, one of them each,
   or the next of both where they match.
   */
  ghost predicate Follows(displayed: seq<Cue>, standard: seq<Line>, m: Matcher, di: nat, si: nat,
                          es: seq<Entry>, dj: nat, sj: nat)
    decreases |es|
  {
    if es == [] then di == dj && si == sj
    else match es[0].kind
      case Matched =>
        di < |displayed| && si < |standard| && m(displayed[di], standard[si])
        && es[0] == PairEntry(displayed[di], standard[si])
        && Follows(displayed, standard, m, di + 1, si + 1, es[1..], dj, sj)
      case Displayed =>
        di < |displayed| && es[0] == CueEntry(displayed[di])
        && Follows(displayed, standard, m, di + 1, si, es[1..], dj, sj)
      case Standard =>
        si < |standard| && es[0] == LineEntry(standard[si])
        && Follows(displayed, standard, m, di, si + 1, es[1..], dj, sj)
  }

  lemma {:induction false} FollowsConcat(displayed: seq<Cue>, standard: seq<Line>, m: Matcher, di: nat, si: nat,
                                         a: seq<Entry>, dk: nat, sk: nat, b: seq<Entry>, dj: nat, sj: nat)
    requires Follows(displayed, standard, m, di, si, a, dk, sk)
    requires Follows(displayed, standard, m, dk, sk, b, dj, sj)
    ensures Follows(displayed, standard, m, di, si, a + b, dj, sj)
    decreases |a|
  {
    if a == [] {
      assert a + b == b;
    } else {
      assert (a + b)[1..] == a[1..] + b;
      var d, s := (if a[0].kind == Standard then di else di + 1), (if a[0].kind == Displayed then si else si + 1);
      FollowsConcat(displayed, standard, m, d, s, a[1..], dk, sk, b, dj, sj);
    }
  }

  lemma {:induction false} CuesFollow(displayed: seq<Cue>, standard: seq<Line>, m: Matcher, di: nat, dj: nat, si: nat)
    requires di <= dj <= |displayed|
    ensures Follows(displayed, standard, m, di, si, CueEntries(displayed[di..dj]), dj, si)
  {
    if di < dj {
      CuesFollow(displayed, standard, m, di, dj - 1, si);
      assert displayed[di..dj][..dj - di - 1] == displayed[di..dj - 1];
      FollowsConcat(displayed, standard, m, di, si, CueEntries(displayed[di..dj - 1]), dj - 1, si,
                    [CueEntry(displayed[dj - 1])], dj, si);
    }
  }

  lemma {:induction false} LinesFollow(displayed: seq<Cue>, standard: seq<Line>, m: Matcher, di: nat, si: nat, sj: nat)
    requires si <= sj <= |standard|
    ensures Follows(displayed, standard, m, di, si, LineEntries(standard[si..sj]), di, sj)
  {
    if si < sj {
      LinesFollow(displayed, standard, m, di, si, sj - 1);
      assert standard[si..sj][..sj - si - 1] == standard[si..sj - 1];
      FollowsConcat(displayed, standard, m, di, si, LineEntries(standard[si..sj - 1]), di, sj - 1,
                    [LineEntry(standard[sj - 1])], di, sj);
    }
  }

  lemma BlockFollows(displayed: seq<Cue>, standard: seq<Line>, m: Matcher, di: nat, dj: nat, si: nat, sj: nat)
    requires di <= dj <= |displayed| && si <= sj <= |standard|
    ensures Follows(displayed, standard, m, di, si, Block(displayed, standard, di, dj, si, sj), dj, sj)
  {
    CuesFollow(displayed, standard, m, di, dj, si);
    LinesFollow(displayed, standard, m, dj, si, sj);
    FollowsConcat(displayed, standard, m, di, si, CueEntries(displayed[di..dj]), dj, si,
                  LineEntries(standard[si..sj]), dj, sj);
  }

  lemma TurnFollows(displayed: seq<Cue>, standard: seq<Line>, m: Matcher, di: nat, si: nat)
    requires di < |displayed| && si < |standard| && NextTurn(displayed, standard, m, di, si).Some?
    ensures var t := NextTurn(displayed, standard, m, di, si).value;
            Follows(displayed, standard, m, di, si, t.copied, t.di, t.si)
  {
    var t := NextTurn(displayed, standard, m, di, si).value;
    if !m(displayed[di], standard[si]) { BlockFollows(displayed, standard, m, di, t.di, si, t.si); }
  }

  /** The walk takes every cue and every line, each once and in order, and pairs only what matches. */
  lemma {:induction false} WalkInOrder(displayed: seq<Cue>, standard: seq<Line>, m: Matcher, di: nat, si: nat)
    requires di <= |displayed| && si <= |standard|
    ensures Follows(displayed, standard, m, di, si, Rest(displayed, standard, m, di, si), |displayed|, |standard|)
    decreases |displayed| - di + |standard| - si
  {
    if di < |displayed| && si < |standard| && NextTurn(displayed, standard, m, di, si).Some? {
      var t := NextTurn(displayed, standard, m, di, si).value;
      var rest := Rest(displayed, standard, m, t.di, t.si);
      TurnFollows(displayed, standard, m, di, si);
      WalkInOrder(displayed, standard, m, t.di, t.si);
      FollowsConcat(displayed, standard, m, di, si, t.copied, t.di, t.si, rest, |displayed|, |standard|);
    } else {
      BlockFollows(displayed, standard, m, di, |displayed|, si, |standard|);
    }
  }

  /** Entries that follow the two lists have their timing and their texts. */
  lemma {:induction false} FollowsViews(displayed: seq<Cue>, standard: seq<Line>, m: Matcher, di: nat, si: nat,
                                        es: seq<Entry>, dj: nat, sj: nat)
    requires Follows(displayed, standard, m, di, si, es, dj, sj) && dj <= |displayed| && sj <= |standard|
    ensures di <= dj && si <= sj
    ensures GoldTimes(es) == Times(displayed[di..dj]) && StandardTexts(es) == Texts(standard[si..sj])
    decreases |es|
  {
    if es != [] {
      var d, s := (if es[0].kind == Standard then di else di + 1), (if es[0].kind == Displayed then si else si + 1);
      FollowsViews(displayed, standard, m, d, s, es[1..], dj, sj);
      FirstViews(es);
      CueSplits(displayed, di, d, dj);
      LineSplits(standard, si, s, sj);
    }
  }

  lemma FirstViews(es: seq<Entry>)
    requires es != []
    ensures GoldTimes(es) == (if es[0].kind == Standard then [] else [(es[0].start, es[0].end)]) + GoldTimes(es[1..])
    ensures StandardTexts(es) == (if es[0].kind == Displayed then [] else [es[0].content]) + StandardTexts(es[1..])
  {
    OneEntryViews(es[0]);
    ViewsConcat([es[0]], es[1..]);
    assert es == [es[0]] + es[1..];
  }

  lemma CueSplits(displayed: seq<Cue>, di: nat, d: nat, dj: nat)
    requires di <= d <= dj <= |displayed| && d <= di + 1
    ensures Times(displayed[di..dj])
            == (if d == di then [] else [(Some(displayed[di].start), Some(displayed[di].end))]) + Times(displayed[d..dj])
  {
    TimesConcat(displayed[di..d], displayed[d..dj]);
    assert displayed[di..dj] == displayed[di..d] + displayed[d..dj];
    assert d > di ==> displayed[di..d] == [displayed[di]] && [displayed[di]][..0] == [];
  }

  lemma LineSplits(standard: seq<Line>, si: nat, s: nat, sj: nat)
    requires si <= s <= sj <= |standard| && s <= si + 1
    ensures Texts(standard[si..sj])
            == (if s == si then [] else [standard[si].content]) + Texts(standard[s..sj])
  {
    TextsConcat(standard[si..s], standard[s..sj]);
    assert standard[si..sj] == standard[si..s] + standard[s..sj];
    assert s > si ==> standard[si..s] == [standard[si]] && [standard[si]][..0] == [];
  }

  lemma WalkKeepsAll(displayed: seq<Cue>, standard: seq<Line>, m: Matcher)
    ensures GoldTimes(Rest(displayed, standard, m, 0, 0)) == Times(displayed)
    ensures StandardTexts(Rest(displayed, standard, m, 0, 0)) == Texts(standard)
  {
    WalkInOrder(displayed, standard, m, 0, 0);
    FollowsViews(displayed, standard, m, 0, 0, Rest(displayed, standard, m, 0, 0), |displayed|, |standard|);
    assert displayed[0..|displayed|] == displayed && standard[0..|standard|] == standard;
  }

  // ----- The window -----

  /** The window keeps the timing of all entries. */
  lemma {:induction false} CutTimes(entries: seq<Entry>, f: nat, l: nat, i: nat)
    requires f <= l <= |entries| && i <= |entries| && NoMatchOutside(entries, f, l)
    ensures GoldTimes(Cut(entries, f, l, i)) == GoldTimes(entries[..i])
  {
    if i > 0 {
      CutTimes(entries, f, l, i - 1);
      CutOneTime(entries, f, l, i);
      PrefixTimes(entries, i);
    }
  }

  lemma {:induction false} CutTextsBefore(entries: seq<Entry>, f: nat, l: nat, i: nat)
    requires i <= f <= l <= |entries| && NoMatchOutside(entries, f, l)
    ensures StandardTexts(Cut(entries, f, l, i)) == []
  {
    if i > 0 {
      CutTextsBefore(entries, f, l, i - 1);
      CutTextsStay(entries, f, l, i);
    }
  }

  /** An entry outside the window adds no text. */
  lemma CutTextsStay(entries: seq<Entry>, f: nat, l: nat, i: nat)
    requires f <= l <= |entries| && 0 < i <= |entries| && !(f <= i - 1 < l) && NoMatchOutside(entries, f, l)
    ensures StandardTexts(Cut(entries, f, l, i)) == StandardTexts(Cut(entries, f, l, i - 1))
  {
    CutOneText(entries, f, l, i);
  }

  lemma CutTextsAtStart(entries: seq<Entry>, f: nat, l: nat)
    requires f <= l <= |entries| && NoMatchOutside(entries, f, l)
    ensures StandardTexts(Cut(entries, f, l, f)) == StandardTexts(entries[f..f])
  {
    CutTextsBefore(entries, f, l, f);
    assert entries[f..f] == [];
  }

  lemma {:induction false} CutTextsInside(entries: seq<Entry>, f: nat, l: nat, i: nat)
    requires f <= i <= l <= |entries| && NoMatchOutside(entries, f, l)
    ensures StandardTexts(Cut(entries, f, l, i)) == StandardTexts(entries[f..i])
  {
    if i == f {
      CutTextsAtStart(entries, f, l);
    } else {
      CutTextsInside(entries, f, l, i - 1);
      CutTextsOn(entries, f, l, i);
    }
  }

  lemma CutTextsOn(entries: seq<Entry>, f: nat, l: nat, i: nat)
    requires f < i <= l <= |entries| && NoMatchOutside(entries, f, l)
    requires StandardTexts(Cut(entries, f, l, i - 1)) == StandardTexts(entries[f..i - 1])
    ensures StandardTexts(Cut(entries, f, l, i)) == StandardTexts(entries[f..i])
  {
    CutOneText(entries, f, l, i);
    PrefixTexts(entries, f, i);
  }

  /** The window keeps the texts of the entries inside it and no others. */
  lemma {:induction false} CutTexts(entries: seq<Entry>, f: nat, l: nat, i: nat)
    requires f <= l <= i <= |entries| && NoMatchOutside(entries, f, l)
    ensures StandardTexts(Cut(entries, f, l, i)) == StandardTexts(entries[f..l])
  {
    if i == l {
      CutTextsInside(entries, f, l, l);
    } else {
      CutTexts(entries, f, l, i - 1);
      CutTextsStay(entries, f, l, i);
    }
  }

  lemma CutOneTime(entries: seq<Entry>, f: nat, l: nat, i: nat)
    requires f <= l <= |entries| && 0 < i <= |entries| && NoMatchOutside(entries, f, l)
    ensures GoldTimes(Cut(entries, f, l, i)) == GoldTimes(Cut(entries, f, l, i - 1)) + GoldTimes([entries[i - 1]])
  {
    var e := entries[i - 1];
    OneEntryViews(e);
    OneEntryViews(e.(content := ""));
    GoldTimesConcat(Cut(entries, f, l, i - 1), if f <= i - 1 < l then [e] else Silenced(e));
  }

  lemma CutOneText(entries: seq<Entry>, f: nat, l: nat, i: nat)
    requires f <= l <= |entries| && 0 < i <= |entries| && NoMatchOutside(entries, f, l)
    ensures StandardTexts(Cut(entries, f, l, i))
            == StandardTexts(Cut(entries, f, l, i - 1)) + if f <= i - 1 < l then StandardTexts([entries[i - 1]]) else []
  {
    var e := entries[i - 1];
    OneEntryViews(e.(content := ""));
    StandardTextsConcat(Cut(entries, f, l, i - 1), if f <= i - 1 < l then [e] else Silenced(e));
  }

  lemma PrefixTimes(entries: seq<Entry>, i: nat)
    requires 0 < i <= |entries|
    ensures GoldTimes(entries[..i]) == GoldTimes(entries[..i - 1]) + GoldTimes([entries[i - 1]])
  {
    GoldTimesConcat(entries[..i - 1], [entries[i - 1]]);
    assert entries[..i] == entries[..i - 1] + [entries[i - 1]];
  }

  lemma PrefixTexts(entries: seq<Entry>, from: nat, i: nat)
    requires from < i <= |entries|
    ensures StandardTexts(entries[from..i]) == StandardTexts(entries[from..i - 1]) + StandardTexts([entries[i - 1]])
  {
    StandardTextsConcat(entries[from..i - 1], [entries[i - 1]]);
    assert entries[from..i] == entries[from..i - 1] + [entries[i - 1]];
  }

  /** The matched window of the walk: the entries from the first to the last matched one. */
  function Window(entries: seq<Entry>): seq<Entry> {
    var f, l := FirstMatch(entries), LastMatch(entries);
    if l == 0 then [] else
      assert f < l;
      entries[f..l]
  }

  /** The window found by the searches, or an empty one at the end. */
  function WindowEnd(entries: seq<Entry>): (l: nat)
    ensures FirstMatch(entries) <= l <= |entries|
    ensures LastMatch(entries) == 0 ==> FirstMatch(entries) == l
  {
    var f, l := FirstMatch(entries), LastMatch(entries);
    if l == 0 then |entries| else
      assert f < l;
      l
  }

  lemma WindowedIsCut(entries: seq<Entry>)
    ensures Windowed(entries) == Cut(entries, FirstMatch(entries), WindowEnd(entries), |entries|)
  {
    if LastMatch(entries) == 0 {
      EmptyWindows(entries, FirstMatch(entries), 0, FirstMatch(entries), WindowEnd(entries), |entries|);
    }
  }

  lemma WindowIsFound(entries: seq<Entry>, f: nat, l: nat)
    requires f == FirstMatch(entries) && l == WindowEnd(entries)
    ensures NoMatchOutside(entries, f, l) && Window(entries) == entries[f..l]
    ensures f < l ==> entries[f].kind == Matched && entries[l - 1].kind == Matched
  {
    if LastMatch(entries) == 0 {
      assert entries[f..l] == [];
    }
  }

  lemma WindowedViews(entries: seq<Entry>)
    ensures GoldTimes(Windowed(entries)) == GoldTimes(entries)
    ensures StandardTexts(Windowed(entries)) == StandardTexts(Window(entries))
  {
    var f, l := FirstMatch(entries), WindowEnd(entries);
    WindowedIsCut(entries);
    WindowIsFound(entries, f, l);
    CutTimes(entries, f, l, |entries|);
    CutTexts(entries, f, l, |entries|);
    assert entries[..|entries|] == entries;
  }

  /** The cut list does not begin with a standard entry, and it is not empty past the window's start. */
  lemma {:induction false} CutBegins(entries: seq<Entry>, f: nat, l: nat, i: nat)
    requires i <= |entries| && (f < l <= |entries| ==> entries[f].kind == Matched)
    requires f <= l <= |entries|
    ensures f < i && f < l ==> Cut(entries, f, l, i) != []
    ensures Cut(entries, f, l, i) != [] ==> Cut(entries, f, l, i)[0].kind != Standard
  {
    if i > 0 {
      CutBegins(entries, f, l, i - 1);
      AppendedBegins(Cut(entries, f, l, i - 1), entries[i - 1], f <= i - 1 < l);
    }
  }

  lemma AppendedBegins(before: seq<Entry>, e: Entry, kept: bool)
    requires before != [] ==> before[0].kind != Standard
    requires before == [] && kept ==> e.kind != Standard
    ensures var r := before + if kept then [e] else Silenced(e);
            (before != [] || kept ==> r != []) && (r != [] ==> r[0].kind != Standard)
  {
  }

  /** Outside the window, and at its end, the cut list does not end with a standard entry. */
  lemma {:induction false} CutStops(entries: seq<Entry>, f: nat, l: nat, i: nat)
    requires f <= l <= |entries| && i <= |entries| && (i <= f || i >= l)
    requires f < l ==> entries[l - 1].kind == Matched
    ensures var r := Cut(entries, f, l, i); r != [] ==> r[|r| - 1].kind != Standard
  {
    if i > 0 && !(f < l && i == l) {
      CutStops(entries, f, l, i - 1);
      SilencedStops(Cut(entries, f, l, i - 1), entries[i - 1]);
    }
  }

  lemma SilencedStops(before: seq<Entry>, e: Entry)
    requires before != [] ==> before[|before| - 1].kind != Standard
    ensures var r := before + Silenced(e); r != [] ==> r[|r| - 1].kind != Standard
  {
  }

  /** Every run of standard entries has a displayed-based entry on both sides. */
  lemma WindowedEnds(entries: seq<Entry>)
    ensures var r := Windowed(entries);
            r != [] ==> r[0].kind != Standard && r[|r| - 1].kind != Standard
  {
    WindowedIsCut(entries);
    WindowIsFound(entries, FirstMatch(entries), WindowEnd(entries));
    CutBegins(entries, FirstMatch(entries), WindowEnd(entries), |entries|);
    CutStops(entries, FirstMatch(entries), WindowEnd(entries), |entries|);
  }

  // ----- Timing comes last -----

  /** Same kind, same text, and the same timing unless it is a standard entry. */
  predicate SameView(a: Entry, b: Entry) {
    a.kind == b.kind && a.content == b.content && (a.kind != Standard ==> a.start == b.start && a.end == b.end)
  }

  lemma {:induction false} SameViews(a: seq<Entry>, b: seq<Entry>)
    requires |a| == |b| && forall i :: 0 <= i < |a| ==> SameView(a[i], b[i])
    ensures GoldTimes(a) == GoldTimes(b) && StandardTexts(a) == StandardTexts(b)
  {
    if a != [] {
      var n := |a| - 1;
      SameViews(a[..n], b[..n]);
      assert SameView(a[n], b[n]);
    }
  }

  lemma SlottedViews(entries: seq<Entry>, n: nat)
    requires GoldTimed(entries) && n <= |entries|
    ensures GoldTimes(Slotted(entries, n)) == GoldTimes(entries[..n])
    ensures StandardTexts(Slotted(entries, n)) == StandardTexts(entries[..n])
  {
    forall i | 0 <= i < n
      ensures SameView(Slotted(entries, n)[i], entries[..n][i])
    {
      SlottedKeeps(entries, n, i);
    }
    SameViews(Slotted(entries, n), entries[..n]);
  }

  /** The result of `_align_segments`. */
  function Calibrated(displayed: seq<Cue>, standard: seq<Line>, m: Matcher): seq<Entry> {
    Slotted(Merged(displayed, standard, m), |Merged(displayed, standard, m)|)
  }

  /** Every displayed cue is in the result, in order, with its own timing. */
  lemma DisplayedTimingKept(displayed: seq<Cue>, standard: seq<Line>, m: Matcher)
    ensures GoldTimes(Calibrated(displayed, standard, m)) == Times(displayed)
  {
    var merged := Merged(displayed, standard, m);
    MergedGoldTimed(displayed, standard, m);
    SlottedViews(merged, |merged|);
    assert merged[..|merged|] == merged;
    WindowedViews(Rest(displayed, standard, m, 0, 0));
    WalkKeepsAll(displayed, standard, m);
  }

  // ----- The main results -----

  /**
   The standard segments in the result are exactly those from the first matched one to the last
   matched one, each once and in order; without a match there are none.
   */
  lemma StandardWindowKept(displayed: seq<Cue>, standard: seq<Line>, m: Matcher)
    returns (lo: nat, hi: nat)
    ensures lo <= hi <= |standard|
    ensures StandardTexts(Calibrated(displayed, standard, m)) == Texts(standard[lo..hi])
    ensures lo == hi <==> LastMatch(Rest(displayed, standard, m, 0, 0)) == 0
    ensures var all := Rest(displayed, standard, m, 0, 0);
            lo < hi ==>
              && |StandardTexts(all[..FirstMatch(all)])| == lo
              && |StandardTexts(all[..LastMatch(all) - 1])| == hi - 1
  {
    var all := Rest(displayed, standard, m, 0, 0);
    CalibratedTexts(displayed, standard, m);
    lo, hi := 0, 0;
    if LastMatch(all) > 0 {
      lo, hi := WindowTexts(all);
    }
    TextsSlice(standard, lo, hi);
  }

  lemma TextsSlice(standard: seq<Line>, lo: nat, hi: nat)
    requires lo <= hi <= |standard|
    ensures Texts(standard)[lo..hi] == Texts(standard[lo..hi])
  {
    TextsConcat(standard[..lo], standard[lo..hi]);
    TextsConcat(standard[..hi], standard[hi..]);
    assert standard[..hi] == standard[..lo] + standard[lo..hi];
    assert standard == standard[..hi] + standard[hi..];
  }

  lemma CalibratedTexts(displayed: seq<Cue>, standard: seq<Line>, m: Matcher)
    ensures var all := Rest(displayed, standard, m, 0, 0);
            && StandardTexts(all) == Texts(standard)
            && StandardTexts(Calibrated(displayed, standard, m)) == StandardTexts(Window(all))
  {
    var merged := Merged(displayed, standard, m);
    MergedGoldTimed(displayed, standard, m);
    SlottedViews(merged, |merged|);
    assert merged[..|merged|] == merged;
    WindowedViews(Rest(displayed, standard, m, 0, 0));
    WalkKeepsAll(displayed, standard, m);
  }

  lemma WindowTexts(all: seq<Entry>) returns (lo: nat, hi: nat)
    requires LastMatch(all) > 0
    ensures FirstMatch(all) < LastMatch(all) <= |all|
    ensures lo == |StandardTexts(all[..FirstMatch(all)])| && hi - 1 == |StandardTexts(all[..LastMatch(all) - 1])|
    ensures lo < hi <= |StandardTexts(all)| && StandardTexts(Window(all)) == StandardTexts(all)[lo..hi]
  {
    var f, l := FirstMatch(all), LastMatch(all);
    lo, hi := |StandardTexts(all[..f])|, |StandardTexts(all[..l])|;
    SplitTexts(all, f, l);
    StandardTextsGrow(all, f, l - 1);
    assert all[..l][..l - 1] == all[..l - 1];
    assert |StandardTexts(all[..l])| == |StandardTexts(all[..l - 1])| + 1;
  }

  lemma SplitTexts(all: seq<Entry>, f: nat, l: nat)
    requires f <= l <= |all|
    ensures var lo, hi := |StandardTexts(all[..f])|, |StandardTexts(all[..l])|;
            lo <= hi <= |StandardTexts(all)| && StandardTexts(all[f..l]) == StandardTexts(all)[lo..hi]
  {
    var a, b, c := all[..f], all[f..l], all[l..];
    assert all[..l] == a + b && all == a + b + c;
    StandardTextsConcat(a, b);
    StandardTextsConcat(a + b, c);
  }

  lemma StandardTextsGrow(entries: seq<Entry>, i: nat, j: nat)
    requires i <= j <= |entries|
    ensures |StandardTexts(entries[..i])| <= |StandardTexts(entries[..j])|
  {
    assert entries[..j] == entries[..i] + entries[i..j];
    StandardTextsConcat(entries[..i], entries[i..j]);
  }

  lemma ClosedGap(merged: seq<Entry>, i: nat)
    requires GoldTimed(merged) && i < |merged| && merged[i].kind == Standard
    requires merged[0].kind != Standard && merged[|merged| - 1].kind != Standard
    ensures i > 0 && GapEnd(merged, i).Some?
  {
    GapEndBeforeLast(merged, i);
  }

  /** Every gap has an end: the open-ended branches of slotting are never taken. */
  lemma NoOpenGap(displayed: seq<Cue>, standard: seq<Line>, m: Matcher, i: nat)
    requires i < |Merged(displayed, standard, m)| && Merged(displayed, standard, m)[i].kind == Standard
    ensures i > 0 && GapEnd(Merged(displayed, standard, m), i).Some?
  {
    MergedEnds(displayed, standard, m);
    MergedGoldTimed(displayed, standard, m);
    ClosedGap(Merged(displayed, standard, m), i);
  }

  lemma MergedEnds(displayed: seq<Cue>, standard: seq<Line>, m: Matcher)
    ensures var r := Merged(displayed, standard, m);
            r != [] ==> r[0].kind != Standard && r[|r| - 1].kind != Standard
  {
    WindowedEnds(Rest(displayed, standard, m, 0, 0));
  }

  lemma {:induction false} GapEndBeforeLast(entries: seq<Entry>, i: nat)
    requires GoldTimed(entries) && i < |entries| && entries[|entries| - 1].kind != Standard
    ensures GapEnd(entries, i).Some?
    decreases |entries| - i
  {
    if entries[i].kind == Standard {
      GapEndBeforeLast(entries, i + 1);
    }
  }

  ghost predicate CuesOrdered(displayed: seq<Cue>) {
    && (forall i :: 0 <= i < |displayed| ==> 0 <= displayed[i].start <= displayed[i].end)
    && (forall i, j :: 0 <= i < j < |displayed| ==> displayed[i].end <= displayed[j].start)
  }

  lemma GoldIndex(entries: seq<Entry>, i: nat)
    requires i < |entries| && entries[i].kind != Standard
    ensures var k := |GoldTimes(entries[..i])|;
            k < |GoldTimes(entries)| && GoldTimes(entries)[k] == (entries[i].start, entries[i].end)
  {
    assert entries == entries[..i + 1] + entries[i + 1..];
    GoldTimesConcat(entries[..i + 1], entries[i + 1..]);
    assert entries[..i + 1][..i] == entries[..i];
  }

  lemma GoldIndexGrows(entries: seq<Entry>, i: nat, j: nat)
    requires i < j < |entries| && entries[i].kind != Standard
    ensures |GoldTimes(entries[..i])| < |GoldTimes(entries[..j])|
  {
    assert entries[..j] == entries[..i + 1] + entries[i + 1..j];
    GoldTimesConcat(entries[..i + 1], entries[i + 1..j]);
    assert entries[..i + 1][..i] == entries[..i];
  }

  /** From ordered displayed cues the calibrated file is in order exactly when every inserted line fits its gap. */
  lemma CalibratedInOrder(displayed: seq<Cue>, standard: seq<Line>, m: Matcher)
    requires CuesOrdered(displayed)
    ensures InOrder(Calibrated(displayed, standard, m))
       <==> (var merged := Merged(displayed, standard, m);
             forall i: nat :: i < |merged| && merged[i].kind == Standard ==> FitsItsGap(merged, i))
  {
    var merged := Merged(displayed, standard, m);
    MergedGoldTimed(displayed, standard, m);
    WindowedViews(Rest(displayed, standard, m, 0, 0));
    WalkKeepsAll(displayed, standard, m);
    forall i | 0 <= i < |merged| && merged[i].kind != Standard
      ensures 0 <= merged[i].start.value <= merged[i].end.value
    {
      GoldIndex(merged, i);
      TimesAt(displayed, |GoldTimes(merged[..i])|);
    }
    forall i, j | 0 <= i < j < |merged| && merged[i].kind != Standard && merged[j].kind != Standard
      ensures merged[i].end.value <= merged[j].start.value
    {
      GoldIndex(merged, i);
      GoldIndex(merged, j);
      GoldIndexGrows(merged, i, j);
      TimesAt(displayed, |GoldTimes(merged[..i])|);
      TimesAt(displayed, |GoldTimes(merged[..j])|);
    }
    SlottingInOrder(merged);
  }
}
