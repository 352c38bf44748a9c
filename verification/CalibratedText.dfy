/**
 The calibrated file read back against its two inputs: what each displayed cue says in the end, and when each
 missed segment is shown. Both are written out here, without the functions that build the entries.
 */
module CalibratedText {
  import opened Text
  import opened Sequences
  import opened Slotting
  import opened Calibration
  import opened MergeConservation

  // ----- The displayed-based entries -----

  /** The displayed-based entries, in order. */
  function Shown(entries: seq<Entry>): seq<Entry> {
    if entries == [] then []
    else
      var e := entries[|entries| - 1];
      Shown(entries[..|entries| - 1]) + if e.kind == Standard then [] else [e]
  }

  lemma {:induction false} ShownConcat(a: seq<Entry>, b: seq<Entry>)
    ensures Shown(a + b) == Shown(a) + Shown(b)
  {
    if b == [] {
      assert a + b == a;
    } else {
      AppendLast(a, b);
      ShownConcat(a, b[..|b| - 1]);
    }
  }

  lemma ShownOne(e: Entry)
    ensures Shown([e]) == if e.kind == Standard then [] else [e]
  {
    assert [e][..0] == [];
  }

  /** Entry `p` stands in the view at the number of displayed-based entries before it. */
  lemma ShownAt(entries: seq<Entry>, p: nat)
    requires p < |entries| && entries[p].kind != Standard
    ensures var k := |Shown(entries[..p])|; k < |Shown(entries)| && Shown(entries)[k] == entries[p]
  {
    SplitAt(entries, p);
    ShownConcat(entries[..p] + [entries[p]], entries[p + 1..]);
    ShownConcat(entries[..p], [entries[p]]);
    ShownOne(entries[p]);
  }

  lemma ShownGrows(entries: seq<Entry>, p: nat, q: nat)
    requires p < q <= |entries| && entries[p].kind != Standard
    ensures |Shown(entries[..p])| < |Shown(entries[..q])|
  {
    assert entries[..q][..p] == entries[..p];
    ShownAt(entries[..q], p);
  }

  /** Every entry of the view has its place in the list. */
  lemma {:induction false} ShownPlace(entries: seq<Entry>, k: nat) returns (p: nat)
    requires k < |Shown(entries)|
    ensures p < |entries| && entries[p].kind != Standard && |Shown(entries[..p])| == k && Shown(entries)[k] == entries[p]
  {
    var n := |entries| - 1;
    if k < |Shown(entries[..n])| {
      p := ShownPlace(entries[..n], k);
      assert entries[..n][..p] == entries[..p];
    } else {
      p := n;
    }
  }

  // ----- The walk -----

  /** A displayed cue as it comes out of the walk: its own text, or that of a line that matches it. */
  ghost predicate IsCopy(c: Cue, standard: seq<Line>, m: Matcher, e: Entry) {
    && e.start == Some(c.start) && e.end == Some(c.end)
    && (e.kind == Displayed ==> e.content == c.content)
    && (e.kind == Matched ==> exists j :: 0 <= j < |standard| && m(c, standard[j]) && e.content == standard[j].content)
    && e.kind != Standard
  }

  /** The view of a piece of the walk that takes the cues from `di` on. */
  ghost predicate Copies(displayed: seq<Cue>, standard: seq<Line>, m: Matcher, di: nat, view: seq<Entry>) {
    di + |view| <= |displayed| && forall k :: 0 <= k < |view| ==> IsCopy(displayed[di + k], standard, m, view[k])
  }

  lemma CopiesFrom(displayed: seq<Cue>, standard: seq<Line>, m: Matcher, di: nat, e: Entry, view: seq<Entry>)
    requires di < |displayed| && IsCopy(displayed[di], standard, m, e) && Copies(displayed, standard, m, di + 1, view)
    ensures Copies(displayed, standard, m, di, [e] + view)
  {
    forall k | 0 <= k < |view| + 1
      ensures IsCopy(displayed[di + k], standard, m, ([e] + view)[k])
    {
      if k > 0 { assert IsCopy(displayed[di + 1 + (k - 1)], standard, m, view[k - 1]); }
    }
  }

  lemma ShownFrom(es: seq<Entry>)
    requires es != []
    ensures Shown(es) == (if es[0].kind == Standard then [] else [es[0]]) + Shown(es[1..])
  {
    assert es == [es[0]] + es[1..];
    ShownConcat([es[0]], es[1..]);
    ShownOne(es[0]);
  }

  lemma {:induction false} WalkShows(displayed: seq<Cue>, standard: seq<Line>, m: Matcher, di: nat, si: nat,
                                    es: seq<Entry>, dj: nat, sj: nat)
    requires Follows(displayed, standard, m, di, si, es, dj, sj) && dj <= |displayed| && sj <= |standard|
    ensures di + |Shown(es)| == dj && Copies(displayed, standard, m, di, Shown(es))
    decreases |es|
  {
    if es != [] {
      var d, s := (if es[0].kind == Standard then di else di + 1), (if es[0].kind == Displayed then si else si + 1);
      WalkShows(displayed, standard, m, d, s, es[1..], dj, sj);
      ShownFrom(es);
      if es[0].kind == Standard {
        assert [] + Shown(es[1..]) == Shown(es[1..]);
      } else {
        CopiesFrom(displayed, standard, m, di, es[0], Shown(es[1..]));
      }
    }
  }

  // ----- The window -----

  /** What the window from `f` to `l` leaves of a displayed-based entry at place `p`. */
  function Veiled(e: Entry, p: nat, f: nat, l: nat): Entry {
    if f <= p < l then e else Entry(e.start, e.end, "", e.kind)
  }

  lemma OneCut(before: seq<Entry>, e: Entry, p: nat, f: nat, l: nat)
    requires !(f <= p < l) ==> e.kind != Matched
    ensures Shown(before + if f <= p < l then [e] else Silenced(e))
         == Shown(before) + if e.kind == Standard then [] else [Veiled(e, p, f, l)]
  {
    ShownConcat(before, if f <= p < l then [e] else Silenced(e));
    ShownOne(e);
    ShownOne(e.(content := ""));
  }

  /** The view grows by what the window leaves of one entry. */
  lemma CutShownStep(entries: seq<Entry>, f: nat, l: nat, i: nat)
    requires f <= l <= |entries| && 0 < i <= |entries| && NoMatchOutside(entries, f, l)
    ensures Shown(Cut(entries, f, l, i))
         == Shown(Cut(entries, f, l, i - 1))
            + if entries[i - 1].kind == Standard then [] else [Veiled(entries[i - 1], i - 1, f, l)]
  {
    OneCut(Cut(entries, f, l, i - 1), entries[i - 1], i - 1, f, l);
  }

  lemma ShownStep(entries: seq<Entry>, i: nat)
    requires 0 < i <= |entries|
    ensures Shown(entries[..i])
         == Shown(entries[..i - 1]) + if entries[i - 1].kind == Standard then [] else [entries[i - 1]]
  {
    assert entries[..i][..i - 1] == entries[..i - 1];
  }

  /** The views of the first `i` entries, cut and not, are equally long. */
  predicate SameLength(entries: seq<Entry>, f: nat, l: nat, i: nat)
    requires i <= |entries|
  {
    |Shown(Cut(entries, f, l, i))| == |Shown(entries[..i])|
  }

  lemma CutLengthStep(entries: seq<Entry>, f: nat, l: nat, i: nat)
    requires f <= l <= |entries| && 0 < i <= |entries| && NoMatchOutside(entries, f, l) && SameLength(entries, f, l, i - 1)
    ensures SameLength(entries, f, l, i)
  {
    CutShownStep(entries, f, l, i);
    ShownStep(entries, i);
  }

  lemma {:induction false} CutShownLength(entries: seq<Entry>, f: nat, l: nat, i: nat)
    requires f <= l <= |entries| && i <= |entries| && NoMatchOutside(entries, f, l)
    ensures SameLength(entries, f, l, i)
  {
    if i > 0 {
      CutShownLength(entries, f, l, i - 1);
      CutLengthStep(entries, f, l, i);
    }
  }

  /** In the view of the first `i` entries, entry `p` stands as the window leaves it. */
  predicate VeiledAt(entries: seq<Entry>, f: nat, l: nat, i: nat, p: nat)
    requires p < i <= |entries|
  {
    var view, k := Shown(Cut(entries, f, l, i)), |Shown(entries[..p])|;
    k < |view| && view[k] == Veiled(entries[p], p, f, l)
  }

  lemma CutShownLast(entries: seq<Entry>, f: nat, l: nat, i: nat)
    requires f <= l <= |entries| && 0 < i <= |entries| && NoMatchOutside(entries, f, l)
    requires entries[i - 1].kind != Standard
    ensures VeiledAt(entries, f, l, i, i - 1)
  {
    var before, now, last := Shown(Cut(entries, f, l, i - 1)), Shown(Cut(entries, f, l, i)), Veiled(entries[i - 1], i - 1, f, l);
    assert now == before + [last] by { CutShownStep(entries, f, l, i); }
    assert |before| == |Shown(entries[..i - 1])| by { CutShownLength(entries, f, l, i - 1); }
    LastOf(now, before, last);
  }

  lemma LastOf<T>(x: seq<T>, y: seq<T>, last: T)
    requires x == y + [last]
    ensures |y| < |x| && x[|y|] == last
  {
  }

  lemma CutShownOn(entries: seq<Entry>, f: nat, l: nat, i: nat, p: nat)
    requires f <= l <= |entries| && p < i - 1 < |entries| && NoMatchOutside(entries, f, l)
    requires VeiledAt(entries, f, l, i - 1, p)
    ensures VeiledAt(entries, f, l, i, p)
  {
    CutShownStep(entries, f, l, i);
  }

  lemma {:induction false} CutShownAt(entries: seq<Entry>, f: nat, l: nat, i: nat, p: nat)
    requires f <= l <= |entries| && p < i <= |entries| && NoMatchOutside(entries, f, l) && entries[p].kind != Standard
    ensures VeiledAt(entries, f, l, i, p)
  {
    if p < i - 1 {
      CutShownAt(entries, f, l, i - 1, p);
      CutShownOn(entries, f, l, i, p);
    } else {
      CutShownLast(entries, f, l, i);
    }
  }

  /** There are matched entries of the view before and after number `k`. */
  ghost predicate Between(view: seq<Entry>, k: nat) {
    (exists a :: 0 <= a < k && a < |view| && view[a].kind == Matched)
    && (exists b :: k < b < |view| && view[b].kind == Matched)
  }

  lemma InsideIsBetween(entries: seq<Entry>, f: nat, l: nat, p: nat)
    requires f <= l <= |entries| && NoMatchOutside(entries, f, l)
    requires f < l ==> entries[f].kind == Matched && entries[l - 1].kind == Matched
    requires p < |entries| && entries[p].kind == Displayed
    ensures f <= p < l <==> Between(Shown(entries), |Shown(entries[..p])|)
  {
    var view, k := Shown(entries), |Shown(entries[..p])|;
    if f <= p < l {
      ShownAt(entries, f);
      ShownAt(entries, l - 1);
      ShownGrows(entries, f, p);
      ShownGrows(entries, p, l - 1);
    }
    if Between(view, k) {
      var a :| 0 <= a < k && a < |view| && view[a].kind == Matched;
      var b :| k < b < |view| && view[b].kind == Matched;
      var pa := ShownPlace(entries, a);
      var pb := ShownPlace(entries, b);
      if p < pa { ShownGrows(entries, p, pa); }
      if pb < p { ShownGrows(entries, pb, p); }
    }
  }

  /** The view of the window: entries not between matched ones lose their text, and nothing else changes. */
  lemma WindowShows(entries: seq<Entry>, k: nat)
    requires k < |Shown(entries)|
    ensures |Shown(Windowed(entries))| == |Shown(entries)|
    ensures var e, r := Shown(entries)[k], Shown(Windowed(entries))[k];
            && r.start == e.start && r.end == e.end && r.kind == e.kind
            && r.content == if e.kind == Matched || Between(Shown(entries), k) then e.content else ""
  {
    var f, l := FirstMatch(entries), WindowEnd(entries);
    WindowedIsCut(entries);
    WindowIsFound(entries, f, l);
    var p := ShownPlace(entries, k);
    CutShownLength(entries, f, l, |entries|);
    CutShownAt(entries, f, l, |entries|, p);
    assert entries[..|entries|] == entries;
    if entries[p].kind == Displayed { InsideIsBetween(entries, f, l, p); }
  }

  // ----- Slotting -----

  lemma {:induction false} ShownSame(a: seq<Entry>, b: seq<Entry>)
    requires |a| == |b|
    requires forall i :: 0 <= i < |a| ==> a[i].kind == b[i].kind && (a[i].kind != Standard ==> a[i] == b[i])
    ensures Shown(a) == Shown(b)
  {
    if a != [] { ShownSame(a[..|a| - 1], b[..|b| - 1]); }
  }

  lemma CalibratedShows(displayed: seq<Cue>, standard: seq<Line>, m: Matcher)
    ensures Shown(Calibrated(displayed, standard, m)) == Shown(Merged(displayed, standard, m))
  {
    var merged := Merged(displayed, standard, m);
    MergedGoldTimed(displayed, standard, m);
    forall i | 0 <= i < |merged|
      ensures var e := Slotted(merged, |merged|)[i];
              e.kind == merged[i].kind && (e.kind != Standard ==> e == merged[i])
    {
      SlottedKeeps(merged, |merged|, i);
    }
    ShownSame(Slotted(merged, |merged|), merged);
  }

  // ----- What each displayed cue says -----

  /** Displayed cue `c` as number `k` of the result. */
  ghost predicate SaysRightly(c: Cue, standard: seq<Line>, m: Matcher, view: seq<Entry>, k: nat)
    requires k < |view|
  {
    && view[k].start == Some(c.start) && view[k].end == Some(c.end)
    && (view[k].kind == Matched ==>
          exists j :: 0 <= j < |standard| && m(c, standard[j]) && view[k].content == standard[j].content)
    && (view[k].kind == Displayed ==> view[k].content == if Between(view, k) then c.content else "")
    && view[k].kind != Standard
  }

  /**
   The displayed-based entries of the result are the displayed cues in order with their timing. A matched one has
   the text of a line that matches it; another one has its own text if it stands between matched ones, and none
   otherwise.
   */
  lemma DisplayedTextKept(displayed: seq<Cue>, standard: seq<Line>, m: Matcher)
    ensures var view := Shown(Calibrated(displayed, standard, m));
            |view| == |displayed| && forall k :: 0 <= k < |view| ==> SaysRightly(displayed[k], standard, m, view, k)
  {
    var all := Rest(displayed, standard, m, 0, 0);
    WalkInOrder(displayed, standard, m, 0, 0);
    WalkShows(displayed, standard, m, 0, 0, all, |displayed|, |standard|);
    CalibratedShows(displayed, standard, m);
    WindowLength(all);
    forall k | 0 <= k < |displayed|
      ensures SaysRightly(displayed[k], standard, m, Shown(Windowed(all)), k)
    {
      assert IsCopy(displayed[0 + k], standard, m, Shown(all)[k]);
      WindowSays(displayed[k], standard, m, all, k);
    }
  }

  lemma WindowSays(c: Cue, standard: seq<Line>, m: Matcher, all: seq<Entry>, k: nat)
    requires k < |Shown(all)| && IsCopy(c, standard, m, Shown(all)[k])
    ensures |Shown(Windowed(all))| == |Shown(all)| && SaysRightly(c, standard, m, Shown(Windowed(all)), k)
  {
    WindowShows(all, k);
    SameBetween(Shown(all), Shown(Windowed(all)), all, k);
  }

  lemma WindowLength(all: seq<Entry>)
    ensures |Shown(Windowed(all))| == |Shown(all)|
  {
    var f, l := FirstMatch(all), WindowEnd(all);
    WindowedIsCut(all);
    WindowIsFound(all, f, l);
    CutShownLength(all, f, l, |all|);
    assert all[..|all|] == all;
  }

  lemma SameBetween(before: seq<Entry>, after: seq<Entry>, all: seq<Entry>, k: nat)
    requires before == Shown(all) && after == Shown(Windowed(all)) && |before| == |after|
    ensures Between(before, k) <==> Between(after, k)
  {
    forall a | 0 <= a < |before|
      ensures before[a].kind == after[a].kind
    {
      WindowShows(all, a);
    }
  }

  // ----- When a missed segment is shown -----

  /** The larger and the smaller of two times. */
  function Later(a: int, b: int): int { if a < b then b else a }

  function Earlier(a: int, b: int): int { if a < b then a else b }

  /**
   `r` has the timing that a segment with the timing of `e` gets when the gap is free from `free` to `hi`: the part
   of its own timing that lies in there; if there is none but its own timing starts there or later, its own
   timing; and else two seconds, cut at the end of the gap unless nothing of the gap is left.
   */
  predicate Given(e: Entry, r: Entry, free: int, hi: Option<int>) {
    var owns := e.start.Some? && e.end.Some? && e.start.value < e.end.value;
    if owns && Later(e.start.value, free) < Earlier(e.end.value, if hi.Some? then hi.value else e.end.value) then
      && r.start == Some(Later(e.start.value, free))
      && r.end == Some(if hi.Some? then Earlier(e.end.value, hi.value) else e.end.value)
    else if owns && e.start.value >= free then r.start == e.start && r.end == e.end
    else
      && r.start == Some(free)
      && r.end == Some(if hi.Some? && free < hi.value then Earlier(free + 2_000_000, hi.value) else free + 2_000_000)
  }

  lemma PlacedIsGiven(e: Entry, free: int, hi: Option<int>)
    ensures Given(e, Placed(e, free, hi), free, hi)
  {
  }

  /**
   Where standard entry `i` goes in the finished list: entries `i` to `j` are standard ones, and what is free
   begins where the entry before it ends and ends where entry `j` starts.
   */
  lemma SlotGiven(entries: seq<Entry>, i: nat, j: nat)
    requires GoldTimed(entries) && i < j <= |entries| && forall k :: i <= k < j ==> entries[k].kind == Standard
    requires j < |entries| ==> entries[j].kind != Standard
    ensures var r := Slotted(entries, |entries|);
            && (i > 0 ==> r[i - 1].end.Some?) && (j < |entries| ==> entries[j].start.Some?)
            && Given(entries[i], r[i], if i == 0 then 0 else r[i - 1].end.value,
                     if j < |entries| then entries[j].start else None)
  {
    var n := |entries|;
    var r := Slotted(entries, n);
    SlottedPrefix(entries, i, n);
    SlottedPrefix(entries, i + 1, n);
    assert r[i] == r[..i + 1][i] == Slotted(entries, i + 1)[i];
    GapEndOfRun(entries, i, j);
    if i > 0 {
      assert r[i - 1] == r[..i][i - 1];
      SlottedKeeps(entries, n, i - 1);
    }
    PlacedIsGiven(entries[i], if i == 0 then 0 else r[i - 1].end.value, GapEnd(entries, i));
  }

  lemma {:induction false} WalkKeepsLine(displayed: seq<Cue>, standard: seq<Line>, m: Matcher, di: nat, si: nat,
                                        es: seq<Entry>, dj: nat, sj: nat, p: nat) returns (j: nat)
    requires Follows(displayed, standard, m, di, si, es, dj, sj) && sj <= |standard|
    requires p < |es| && es[p].kind == Standard
    ensures j < |standard| && es[p].start == standard[j].start && es[p].end == standard[j].end
            && es[p].content == standard[j].content
    decreases |es|
  {
    if p == 0 {
      j := si;
    } else {
      var d, s := (if es[0].kind == Standard then di else di + 1), (if es[0].kind == Displayed then si else si + 1);
      j := WalkKeepsLine(displayed, standard, m, d, s, es[1..], dj, sj, p - 1);
    }
  }

  lemma {:induction false} CutKeepsLine(entries: seq<Entry>, f: nat, l: nat, i: nat, k: nat) returns (p: nat)
    requires i <= |entries| && k < |Cut(entries, f, l, i)| && Cut(entries, f, l, i)[k].kind == Standard
    ensures p < |entries| && entries[p] == Cut(entries, f, l, i)[k]
  {
    if k < |Cut(entries, f, l, i - 1)| {
      p := CutKeepsLine(entries, f, l, i - 1, k);
    } else {
      p := i - 1;
    }
  }

  /**
   A missed segment in the result: it is one of the standard ones with its text, and it is given what its own
   timing has in common with what is free of the gap, its own timing past that, or two seconds.
   */
  lemma MissedSegmentShown(displayed: seq<Cue>, standard: seq<Line>, m: Matcher, i: nat, j: nat) returns (s: nat)
    requires var r := Calibrated(displayed, standard, m);
             0 < i < j < |r| && (forall k :: i <= k < j ==> r[k].kind == Standard) && r[j].kind != Standard
    ensures var r := Calibrated(displayed, standard, m);
            && s < |standard| && r[i].content == standard[s].content && r[i - 1].end.Some? && r[j].start.Some?
            && Given(Entry(standard[s].start, standard[s].end, standard[s].content, Standard), r[i],
                     r[i - 1].end.value, r[j].start)
  {
    var merged, all := Merged(displayed, standard, m), Rest(displayed, standard, m, 0, 0);
    MergedGoldTimed(displayed, standard, m);
    forall k | 0 <= k < |merged|
      ensures Slotted(merged, |merged|)[k].kind == merged[k].kind
      ensures merged[k].kind != Standard ==> Slotted(merged, |merged|)[k] == merged[k]
    {
      SlottedKeeps(merged, |merged|, k);
    }
    SlottedKeeps(merged, |merged|, i);
    SlotGiven(merged, i, j);
    var p := CutKeepsLine(all, FirstMatch(all), LastMatch(all), |all|, i);
    WalkInOrder(displayed, standard, m, 0, 0);
    s := WalkKeepsLine(displayed, standard, m, 0, 0, all, |displayed|, |standard|, p);
  }
}
