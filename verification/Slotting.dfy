/**
 routes/files.py: standard-only entries get their timing inside the gaps between displayed-based
 entries. Times are whole microseconds, as in Python's timedelta.
 */
module Slotting {
  import opened Text

  datatype Kind = Matched | Displayed | Standard

  datatype Entry = Entry(start: Option<int>, end: Option<int>, content: string, kind: Kind)

  const TWO_SECONDS := 2_000_000

  /** Displayed-based entries always carry their timing. */
  ghost predicate GoldTimed(entries: seq<Entry>) {
    forall i :: 0 <= i < |entries| && entries[i].kind != Standard ==> entries[i].start.Some? && entries[i].end.Some?
  }

  predicate OwnTiming(e: Entry) {
    e.start.Some? && e.end.Some? && e.end.value > e.start.value
  }

  // ----- One entry -----

  /** The interval given to an entry when the gap is filled up to `cursor` and ends at `hi`, if it ends. */
  function Slot(e: Entry, cursor: int, hi: Option<int>): (int, int) {
    var clipped := if OwnTiming(e) then
        (if e.start.value > cursor then e.start.value else cursor,
         if hi.Some? && hi.value < e.end.value then hi.value else e.end.value)
      else (cursor, cursor);
    if OwnTiming(e) && clipped.1 > clipped.0 then clipped
    else if OwnTiming(e) && e.start.value >= cursor then (e.start.value, e.end.value)
    else
      var t := if hi.Some? && cursor + TWO_SECONDS > hi.value then hi.value else cursor + TWO_SECONDS;
      (cursor, if t <= cursor then cursor + TWO_SECONDS else t)
  }

  function Placed(e: Entry, cursor: int, hi: Option<int>): Entry {
    var (s, t) := Slot(e, cursor, hi);
    e.(start := Some(s), end := Some(t))
  }

  /** The gap is used up, or the entry's own timing lies wholly at or past its end. */
  predicate Overflows(e: Entry, cursor: int, hi: int) {
    cursor >= hi || (OwnTiming(e) && e.start.value >= hi)
  }

  /** Every slot has positive length and starts at the cursor or later; it passes the end exactly when it overflows. */
  lemma SlotFits(e: Entry, cursor: int, hi: Option<int>)
    ensures var (s, t) := Slot(e, cursor, hi); cursor <= s < t
    ensures hi.Some? ==> (Slot(e, cursor, hi).1 > hi.value <==> Overflows(e, cursor, hi.value))
  {
  }

  // ----- All entries -----

  /** Where the gap around entry `i` ends: the start of the next displayed-based entry. */
  function GapEnd(entries: seq<Entry>, i: nat): Option<int>
    requires i <= |entries|
    decreases |entries| - i
  {
    if i == |entries| then None
    else if entries[i].kind != Standard then entries[i].start
    else GapEnd(entries, i + 1)
  }

  function Slotted(entries: seq<Entry>, n: nat): (r: seq<Entry>)
    requires n <= |entries|
    ensures |r| == n
  {
    if n == 0 then []
    else
      var r, e := Slotted(entries, n - 1), entries[n - 1];
      if e.kind != Standard then r + [e]
      else
        r + [Placed(e, Cursor(r), GapEnd(entries, n - 1))]
  }

  /** The end of the last entry placed, or zero. */
  function Cursor(placed: seq<Entry>): int {
    if placed == [] then 0
    else
      match placed[|placed| - 1].end
      case None => 0
      case Some(t) => t
  }

  lemma {:induction false} SlottedPrefix(entries: seq<Entry>, m: nat, n: nat)
    requires m <= n <= |entries|
    ensures Slotted(entries, n)[..m] == Slotted(entries, m)
  {
    if m < n {
      SlottedPrefix(entries, m, n - 1);
      assert Slotted(entries, n)[..n - 1] == Slotted(entries, n - 1);
      assert Slotted(entries, n)[..m] == Slotted(entries, n)[..n - 1][..m];
    }
  }

  lemma SlottedStep(entries: seq<Entry>, k: nat)
    requires k < |entries| && entries[k].kind == Standard
    ensures var e := Placed(entries[k], Cursor(Slotted(entries, k)), GapEnd(entries, k));
            Slotted(entries, k + 1) == Slotted(entries, k) + [e] && Some(Cursor(Slotted(entries, k + 1))) == e.end
  {
  }

  /** Only the timing of standard entries changes, and all entries end up timed. */
  lemma SlottedKeeps(entries: seq<Entry>, n: nat, i: nat)
    requires GoldTimed(entries) && i < n <= |entries|
    ensures var r := Slotted(entries, n);
            && r[i].kind == entries[i].kind && r[i].content == entries[i].content
            && r[i].start.Some? && r[i].end.Some?
            && (entries[i].kind != Standard ==> r[i] == entries[i])
  {
    SlottedPrefix(entries, i + 1, n);
    assert Slotted(entries, n)[i] == Slotted(entries, n)[..i + 1][i];
  }

  lemma {:induction false} GapEndOfRun(entries: seq<Entry>, i: nat, j: nat)
    requires i <= j <= |entries| && forall k :: i <= k < j ==> entries[k].kind == Standard
    requires j < |entries| ==> entries[j].kind != Standard
    ensures GapEnd(entries, i) == if j < |entries| then entries[j].start else None
    decreases j - i
  {
    if i < j {
      GapEndOfRun(entries, i + 1, j);
    }
  }

  /** The inner loop's body: the new interval of one entry. */
  method PlaceEntry(e: Entry, cursor: int, gapEnd: Option<int>) returns (e': Entry, cursor': int)
    ensures e' == Placed(e, cursor, gapEnd) && e'.end == Some(cursor')
  {
    var s, t;
    if e.start.Some? && e.end.Some? && e.end.value > e.start.value {
      var ownStart, ownEnd := e.start.value, e.end.value;
      var hi := if gapEnd.Some? then gapEnd.value else ownEnd;
      s := if ownStart >= cursor then ownStart else cursor;
      t := if ownEnd <= hi then ownEnd else hi;
      if t > s {
        return e.(start := Some(s), end := Some(t)), t;
      }
      if ownStart >= cursor {
        return e, ownEnd;
      }
    }
    s, t := cursor, cursor + TWO_SECONDS;
    if gapEnd.Some? && t > gapEnd.value {
      t := gapEnd.value;
    }
    if t <= s {
      t := s + TWO_SECONDS;
    }
    return e.(start := Some(s), end := Some(t)), t;
  }

  /** The inner loop: fill one run of standard entries. */
  method FillRun(entries: array<Entry>, i: nat, j: nat, gapStart: int, gapEnd: Option<int>, ghost was: seq<Entry>)
    requires |was| == entries.Length && i < j <= |was|
    requires entries[..i] == Slotted(was, i) && entries[i..] == was[i..]
    requires forall k :: i <= k < j ==> was[k].kind == Standard
    requires j < |was| ==> was[j].kind != Standard
    requires gapEnd == if j < |was| then was[j].start else None
    requires gapStart == Cursor(Slotted(was, i))
    modifies entries
    ensures entries[..j] == Slotted(was, j) && entries[j..] == was[j..]
  {
    var cursor := gapStart;
    var k := i;
    while k < j
      invariant i <= k <= j
      invariant entries[..k] == Slotted(was, k) && entries[k..] == was[k..]
      invariant cursor == Cursor(Slotted(was, k))
    {
      assert entries[k] == entries[k..][0] == was[k];
      GapEndOfRun(was, k, j);
      var e, t := PlaceEntry(entries[k], cursor, gapEnd);
      ghost var done, rest := entries[..k], entries[k..];
      entries[k] := e;
      cursor := t;
      assert entries[..k + 1] == done + [e];
      assert entries[k + 1..] == rest[1..];
      SlottedStep(was, k);
      k := k + 1;
    }
  }

  /** `_slot_standard_entries`, in place. */
  method SlotStandardEntries(entries: array<Entry>)
    requires GoldTimed(entries[..])
    modifies entries
    ensures entries[..] == Slotted(old(entries[..]), entries.Length)
  {
    ghost var was := entries[..];
    var n := entries.Length;
    var i := 0;
    while i < n
      invariant 0 <= i <= n
      invariant entries[..i] == Slotted(was, i) && entries[i..] == was[i..]
      invariant 0 < i < n && was[i].kind == Standard ==> was[i - 1].kind != Standard
    {
      assert entries[i] == entries[i..][0] == was[i];
      if entries[i].kind != Standard {
        assert entries[..i + 1] == entries[..i] + [entries[i]];
        assert entries[i + 1..] == was[i..][1..];
        i := i + 1;
        continue;
      }
      var j := i;
      while j < n && entries[j].kind == Standard
        invariant i <= j <= n
        invariant forall k :: i <= k < j ==> was[k].kind == Standard
      {
        assert entries[j] == entries[i..][j - i] == was[j];
        j := j + 1;
      }
      assert j < n ==> entries[j] == entries[i..][j - i] == was[j];
      assert j > i;
      var gapEnd := if j < n then entries[j].start else None;
      var gapStart := 0;
      if i > 0 {
        assert entries[i - 1] == entries[..i][i - 1] == Slotted(was, i)[i - 1];
        SlottedKeeps(was, i, i - 1);
        gapStart := entries[i - 1].end.value;
      }
      FillRun(entries, i, j, gapStart, gapEnd, was);
      i := j;
    }
    assert entries[..n] == entries[..];
  }

  // ----- What slotting promises -----

  /** Displayed-based entries come in order and do not overlap. */
  ghost predicate GoldOrdered(entries: seq<Entry>) {
    && GoldTimed(entries)
    && (forall i :: 0 <= i < |entries| && entries[i].kind != Standard ==>
          0 <= entries[i].start.value <= entries[i].end.value)
    && (forall i, j :: 0 <= i < j < |entries| && entries[i].kind != Standard && entries[j].kind != Standard ==>
          entries[i].end.value <= entries[j].start.value)
  }

  /** All entries are timed, in order, and do not overlap. */
  ghost predicate InOrder(entries: seq<Entry>) {
    && (forall i :: 0 <= i < |entries| ==>
          entries[i].start.Some? && entries[i].end.Some? && entries[i].start.value <= entries[i].end.value)
    && (forall i, j :: 0 <= i < j < |entries| ==> entries[i].end.value <= entries[j].start.value)
  }

  /** Standard entry `i` does not overflow its gap when its turn comes. */
  ghost predicate FitsItsGap(entries: seq<Entry>, i: nat)
    requires i < |entries|
  {
    var hi := GapEnd(entries, i);
    hi.Some? ==> !Overflows(entries[i], Cursor(Slotted(entries, i)), hi.value)
  }

  /** In a run, each entry starts where the one before it ends or later, and lasts. */
  lemma RunIncreases(entries: seq<Entry>, n: nat)
    requires GoldTimed(entries) && 0 < n <= |entries| && entries[n - 1].kind == Standard
    ensures var r := Slotted(entries, n);
            && r[n - 1].start.value < r[n - 1].end.value
            && (n == 1 ==> 0 <= r[0].start.value)
            && (n > 1 ==> r[n - 2].end.Some? && r[n - 2].end.value <= r[n - 1].start.value)
            && (GapEnd(entries, n - 1).Some? ==>
                 (r[n - 1].end.value <= GapEnd(entries, n - 1).value <==> FitsItsGap(entries, n - 1)))
  {
    SlotFits(entries[n - 1], Cursor(Slotted(entries, n - 1)), GapEnd(entries, n - 1));
    SlottedPrefix(entries, n - 1, n);
  }

  lemma {:induction false} GapEndIsNext(entries: seq<Entry>, i: nat, j: nat)
    requires GoldOrdered(entries) && i <= j < |entries| && entries[j].kind != Standard
    ensures GapEnd(entries, i).Some? && GapEnd(entries, i).value <= entries[j].start.value
    decreases j - i
  {
    if i < j {
      if entries[i].kind == Standard {
        GapEndIsNext(entries, i + 1, j);
      }
    }
  }

  /** With all entries so far fitting, the placed prefix stays in order and inside its gap. */
  lemma {:induction false} FittingInOrder(entries: seq<Entry>, n: nat)
    requires GoldOrdered(entries) && n <= |entries|
    requires forall i: nat :: i < n && entries[i].kind == Standard ==> FitsItsGap(entries, i)
    ensures InOrder(Slotted(entries, n))
    ensures n > 0 && GapEnd(entries, n).Some? ==> Slotted(entries, n)[n - 1].end.value <= GapEnd(entries, n).value
  {
    if n > 0 {
      FittingInOrder(entries, n - 1);
      var r := Slotted(entries, n);
      SlottedPrefix(entries, n - 1, n);
      if entries[n - 1].kind == Standard {
        RunIncreases(entries, n);
      } else if GapEnd(entries, n).Some? {
        var j := NextGold(entries, n);
      }
      LastInOrder(Slotted(entries, n - 1), r[n - 1]);
      assert r == Slotted(entries, n - 1) + [r[n - 1]];
    }
  }

  lemma {:induction false} NextGold(entries: seq<Entry>, i: nat) returns (j: nat)
    requires i <= |entries| && GapEnd(entries, i).Some?
    ensures i <= j < |entries| && entries[j].kind != Standard && GapEnd(entries, i) == entries[j].start
    decreases |entries| - i
  {
    if entries[i].kind != Standard {
      j := i;
    } else {
      j := NextGold(entries, i + 1);
    }
  }

  lemma LastInOrder(r: seq<Entry>, e: Entry)
    requires InOrder(r) && e.start.Some? && e.end.Some? && e.start.value <= e.end.value
    requires r != [] ==> r[|r| - 1].end.value <= e.start.value
    ensures InOrder(r + [e])
  {
    forall i | 0 <= i < |r|
      ensures r[i].end.value <= e.start.value
    {
      if i < |r| - 1 {
        assert r[i].end.value <= r[|r| - 1].start.value;
      }
    }
  }

  lemma OverflowOverlaps(entries: seq<Entry>, i: nat)
    requires GoldOrdered(entries) && i < |entries| && entries[i].kind == Standard && !FitsItsGap(entries, i)
    ensures !InOrder(Slotted(entries, |entries|))
  {
    var n := |entries|;
    RunIncreases(entries, i + 1);
    SlottedPrefix(entries, i + 1, n);
    assert Slotted(entries, n)[i] == Slotted(entries, n)[..i + 1][i];
    var j := NextGold(entries, i);
    SlottedKeeps(entries, n, j);
  }

  /** The result is ordered and free of overlaps exactly when every standard entry fits its gap. */
  lemma SlottingInOrder(entries: seq<Entry>)
    requires GoldOrdered(entries)
    ensures InOrder(Slotted(entries, |entries|))
       <==> forall i: nat :: i < |entries| && entries[i].kind == Standard ==> FitsItsGap(entries, i)
  {
    if i: nat :| i < |entries| && entries[i].kind == Standard && !FitsItsGap(entries, i) {
      OverflowOverlaps(entries, i);
    } else {
      FittingInOrder(entries, |entries|);
    }
  }

  /** The promise of monotonic timing is not unconditional: a full gap pushes the entry over the next cue. */
  lemma MonotonicTimingFails() returns (entries: seq<Entry>)
    ensures GoldOrdered(entries) && |entries| == 3
    ensures entries[0].kind != Standard && entries[2].kind != Standard
    ensures !InOrder(Slotted(entries, 3))
  {
    entries := [
      Entry(Some(0), Some(1_000_000), "a", Matched),
      Entry(None, None, "b", Standard),
      Entry(Some(1_000_000), Some(2_000_000), "c", Matched)];
    SlottedKeeps(entries, 1, 0);
    GapEndOfRun(entries, 1, 2);
    OverflowOverlaps(entries, 1);
  }
}
