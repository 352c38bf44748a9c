/**
 Which cues and lines the calibration walk pairs: from each position the present pair if it matches, else the
 nearest pair that matches in the window, and so on from there.
 */
module WalkPairs {
  import opened Text
  import opened Sequences
  import opened Slotting
  import opened Calibration

  /** The places of the matched pairs in a list of entries that takes up the cues from `di` and the lines from `si`. */
  function PairsOf(es: seq<Entry>, di: nat, si: nat): seq<(nat, nat)> {
    if es == [] then []
    else
      match es[0].kind
      case Matched => [(di, si)] + PairsOf(es[1..], di + 1, si + 1)
      case Displayed => PairsOf(es[1..], di + 1, si)
      case Standard => PairsOf(es[1..], di, si + 1)
  }

  /** The pair at (`x`, `y`) is the one to take from (`di`, `si`). */
  ghost predicate Best(displayed: seq<Cue>, standard: seq<Line>, m: Matcher, di: nat, si: nat, x: nat, y: nat)
    requires di < |displayed| && si < |standard|
  {
    if m(displayed[di], standard[si]) then x == di && y == si
    else
      && di <= x && si <= y && Candidate(displayed, standard, m, di, si, x - di, y - si)
      && forall a: nat, b: nat :: Candidate(displayed, standard, m, di, si, a, b) ==> Before(x - di, y - si, a, b)
  }

  /** These pairs are taken one after the other from (`di`, `si`), each the best from where the one before it leads. */
  ghost predicate Greedy(displayed: seq<Cue>, standard: seq<Line>, m: Matcher, di: nat, si: nat, pairs: seq<(nat, nat)>)
    decreases |pairs|
  {
    if pairs == [] then
      di >= |displayed| || si >= |standard|
      || (!m(displayed[di], standard[si])
          && forall a: nat, b: nat :: !Candidate(displayed, standard, m, di, si, a, b))
    else
      && di < |displayed| && si < |standard| && Best(displayed, standard, m, di, si, pairs[0].0, pairs[0].1)
      && Greedy(displayed, standard, m, pairs[0].0 + 1, pairs[0].1 + 1, pairs[1..])
  }

  lemma {:induction false} PairsSkipCues(cues: seq<Cue>, rest: seq<Entry>, di: nat, si: nat)
    ensures PairsOf(CueEntries(cues) + rest, di, si) == PairsOf(rest, di + |cues|, si)
    decreases |cues|
  {
    if cues == [] {
      assert CueEntries(cues) + rest == rest;
    } else {
      var n := |cues| - 1;
      var e := CueEntry(cues[n]);
      Regroup(CueEntries(cues[..n]), [e], rest);
      PairsSkipCues(cues[..n], [e] + rest, di, si);
      assert ([e] + rest)[1..] == rest;
    }
  }

  lemma {:induction false} PairsSkipLines(lines: seq<Line>, rest: seq<Entry>, di: nat, si: nat)
    ensures PairsOf(LineEntries(lines) + rest, di, si) == PairsOf(rest, di, si + |lines|)
    decreases |lines|
  {
    if lines == [] {
      assert LineEntries(lines) + rest == rest;
    } else {
      var n := |lines| - 1;
      var e := LineEntry(lines[n]);
      Regroup(LineEntries(lines[..n]), [e], rest);
      PairsSkipLines(lines[..n], [e] + rest, di, si);
      assert ([e] + rest)[1..] == rest;
    }
  }

  lemma PairsSkipBlock(displayed: seq<Cue>, standard: seq<Line>, di: nat, dj: nat, si: nat, sj: nat, rest: seq<Entry>)
    requires di <= dj <= |displayed| && si <= sj <= |standard|
    ensures PairsOf(Block(displayed, standard, di, dj, si, sj) + rest, di, si) == PairsOf(rest, dj, sj)
  {
    Regroup(CueEntries(displayed[di..dj]), LineEntries(standard[si..sj]), rest);
    PairsSkipCues(displayed[di..dj], LineEntries(standard[si..sj]) + rest, di, si);
    PairsSkipLines(standard[si..sj], rest, dj, si);
  }

  lemma TurnPairs(displayed: seq<Cue>, standard: seq<Line>, m: Matcher, di: nat, si: nat, rest: seq<Entry>)
    requires di < |displayed| && si < |standard| && NextTurn(displayed, standard, m, di, si).Some?
    ensures var t := NextTurn(displayed, standard, m, di, si).value;
            PairsOf(t.copied + rest, di, si)
            == (if m(displayed[di], standard[si]) then [(di, si)] else []) + PairsOf(rest, t.di, t.si)
  {
    var t := NextTurn(displayed, standard, m, di, si).value;
    if m(displayed[di], standard[si]) {
      assert (t.copied + rest)[1..] == rest;
    } else {
      PairsSkipBlock(displayed, standard, di, t.di, si, t.si, rest);
    }
  }

  lemma JumpIsBest(displayed: seq<Cue>, standard: seq<Line>, m: Matcher, di: nat, si: nat)
    requires di < |displayed| && si < |standard| && !m(displayed[di], standard[si])
    ensures var t := NextTurn(displayed, standard, m, di, si);
            if t.Some? then
              && t.value.di < |displayed| && t.value.si < |standard| && m(displayed[t.value.di], standard[t.value.si])
              && Best(displayed, standard, m, di, si, t.value.di, t.value.si)
            else forall a: nat, b: nat :: !Candidate(displayed, standard, m, di, si, a, b)
  {
    NearestIs(displayed, standard, m, di, si);
  }

  lemma JumpGreedy(displayed: seq<Cue>, standard: seq<Line>, m: Matcher, di: nat, si: nat, pairs: seq<(nat, nat)>)
    requires di < |displayed| && si < |standard| && !m(displayed[di], standard[si])
    requires NextTurn(displayed, standard, m, di, si).Some?
    requires var t := NextTurn(displayed, standard, m, di, si).value; Greedy(displayed, standard, m, t.di, t.si, pairs)
    ensures Greedy(displayed, standard, m, di, si, pairs)
  {
    JumpIsBest(displayed, standard, m, di, si);
  }

  /** The walk from any position pairs greedily. */
  lemma {:induction false} WalkIsGreedy(displayed: seq<Cue>, standard: seq<Line>, m: Matcher, di: nat, si: nat)
    requires di <= |displayed| && si <= |standard|
    ensures Greedy(displayed, standard, m, di, si, PairsOf(Rest(displayed, standard, m, di, si), di, si))
    decreases |displayed| - di + |standard| - si
  {
    if di < |displayed| && si < |standard| && NextTurn(displayed, standard, m, di, si).Some? {
      var t := NextTurn(displayed, standard, m, di, si).value;
      var rest := Rest(displayed, standard, m, t.di, t.si);
      WalkIsGreedy(displayed, standard, m, t.di, t.si);
      TurnPairs(displayed, standard, m, di, si, rest);
      TurnGreedy(displayed, standard, m, di, si, PairsOf(rest, t.di, t.si));
    } else {
      EndPairs(displayed, standard, di, si);
      if di < |displayed| && si < |standard| { JumpIsBest(displayed, standard, m, di, si); }
    }
  }

  lemma TurnGreedy(displayed: seq<Cue>, standard: seq<Line>, m: Matcher, di: nat, si: nat, pairs: seq<(nat, nat)>)
    requires di < |displayed| && si < |standard| && NextTurn(displayed, standard, m, di, si).Some?
    requires var t := NextTurn(displayed, standard, m, di, si).value; Greedy(displayed, standard, m, t.di, t.si, pairs)
    ensures Greedy(displayed, standard, m, di, si, (if m(displayed[di], standard[si]) then [(di, si)] else []) + pairs)
  {
    if m(displayed[di], standard[si]) {
      assert ([(di, si)] + pairs)[1..] == pairs;
    } else {
      JumpGreedy(displayed, standard, m, di, si, pairs);
      assert [] + pairs == pairs;
    }
  }

  lemma EndPairs(displayed: seq<Cue>, standard: seq<Line>, di: nat, si: nat)
    requires di <= |displayed| && si <= |standard|
    ensures PairsOf(Block(displayed, standard, di, |displayed|, si, |standard|), di, si) == []
  {
    var block := Block(displayed, standard, di, |displayed|, si, |standard|);
    assert block + [] == block;
    PairsSkipBlock(displayed, standard, di, |displayed|, si, |standard|, []);
  }
}
