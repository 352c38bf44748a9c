/** The text splitter of gen_audio.py: a long text is cut at sentence ends, at spaces, or by length. */
module SplitText {
  import opened Text
  import opened Sequences

  /** The separators in the order in which they are tried. */
  const SEPARATORS: seq<string> := [". ", "! ", "? ", ".\n", "!\n", "?\n", ".\r\n", "!\r\n", "?\r\n"]

  /** The last occurrence of `sub` that starts before `n`, or -1. */
  function LastBefore(s: string, sub: string, n: nat): (p: int)
    ensures -1 <= p < n
    ensures p >= 0 ==> Occurs(s, sub, p)
    ensures forall q :: p < q < n ==> !Occurs(s, sub, q)
  {
    if n == 0 then -1 else if Occurs(s, sub, n - 1) then n - 1 else LastBefore(s, sub, n - 1)
  }

  /** `s.rfind(sub)` for a non-empty `sub`. */
  function RFind(s: string, sub: string): (p: int)
    requires sub != ""
    ensures -1 <= p < |s| || p == -1
    ensures p >= 0 ==> Occurs(s, sub, p)
    ensures forall q :: q > p ==> !Occurs(s, sub, q)
  {
    LastBefore(s, sub, |s|)
  }

  /** A sentence ends at `b`: the mark before it and the white space after it lie inside the chunk. */
  ghost predicate SentenceEnd(chunk: string, b: int) {
    exists k :: 0 <= k < |SEPARATORS| && Occurs(chunk, SEPARATORS[k], b - 1)
  }

  /** The last sentence end before `n`, or -1. */
  ghost function LastEnd(chunk: string, n: nat): (b: int)
    ensures b >= 0 ==> b < n && SentenceEnd(chunk, b)
    ensures b == -1 || b >= 0
    ensures forall e :: b < e < n ==> !SentenceEnd(chunk, e)
  {
    if n == 0 then -1 else if SentenceEnd(chunk, n - 1) then n - 1 else LastEnd(chunk, n - 1)
  }

  /** Where the first chunk of a text that is too long ends: at a sentence, at a space, or at the limit. */
  ghost function CutOf(text: string, maxLen: nat): (n: nat)
    requires 0 < maxLen < |text|
    ensures 0 < n <= maxLen
  {
    var chunk := text[..maxLen];
    if LastEnd(chunk, maxLen) > 0 then LastEnd(chunk, maxLen)
    else if RFind(chunk, " ") > 0 then RFind(chunk, " ")
    else maxLen
  }

  /** The chunks are the cuts of the text, the white space after each cut dropped. */
  ghost function Pieces(text: string, maxLen: nat): seq<string>
    requires maxLen > 0
    decreases |text|
  {
    if text == "" then []
    else if |text| <= maxLen then [text]
    else
      var n := CutOf(text, maxLen);
      [text[..n]] + Pieces(LStrip(text[n..]), maxLen)
  }

  predicate IsMark(c: char) { c == '.' || c == '!' || c == '?' }

  predicate IsBreak(c: char) { c == ' ' || c == '\n' || c == '\r' }

  lemma SeparatorShape(k: nat)
    requires k < |SEPARATORS|
    ensures |SEPARATORS[k]| >= 2 && IsMark(SEPARATORS[k][0]) && IsBreak(SEPARATORS[k][1])
  {
  }

  lemma OccurrenceShape(chunk: string, k: nat, p: int)
    requires k < |SEPARATORS| && Occurs(chunk, SEPARATORS[k], p)
    ensures 0 <= p < |chunk| - 1 && IsMark(chunk[p]) && IsBreak(chunk[p + 1])
  {
    SeparatorShape(k);
    var sub := chunk[p..p + |SEPARATORS[k]|];
    assert sub[0] == chunk[p] && sub[1] == chunk[p + 1];
  }

  /** A sentence ends after a mark that a space, a line break or a carriage return and a line break follow. */
  lemma SentenceEndIs(chunk: string, b: int)
    ensures SentenceEnd(chunk, b)
       <==> 0 < b < |chunk| && (chunk[b - 1] == '.' || chunk[b - 1] == '!' || chunk[b - 1] == '?')
            && (chunk[b] == ' ' || chunk[b] == '\n' || (b + 1 < |chunk| && chunk[b] == '\r' && chunk[b + 1] == '\n'))
  {
    if SentenceEnd(chunk, b) {
      var k :| 0 <= k < |SEPARATORS| && Occurs(chunk, SEPARATORS[k], b - 1);
      SeparatorIs(k);
      EndShape(chunk, b, SEPARATORS[k]);
    } else if 0 < b < |chunk| && IsMark(chunk[b - 1]) {
      if chunk[b] == ' ' {
        EndFound(chunk, b, " ");
      } else if chunk[b] == '\n' {
        EndFound(chunk, b, "\n");
      } else if b + 1 < |chunk| && chunk[b] == '\r' && chunk[b + 1] == '\n' {
        EndFound(chunk, b, "\r\n");
      }
    }
  }

  lemma EndFound(chunk: string, b: int, gap: string)
    requires 0 < b && b + |gap| <= |chunk| && IsMark(chunk[b - 1]) && chunk[b..b + |gap|] == gap
    requires gap == " " || gap == "\n" || gap == "\r\n"
    ensures SentenceEnd(chunk, b)
  {
    var k := EndWith(chunk[b - 1], gap);
    EndStands(chunk, b, chunk[b - 1], gap);
  }

  lemma SeparatorIs(k: nat)
    requires k < |SEPARATORS|
    ensures var s := SEPARATORS[k];
            |s| >= 2 && IsMark(s[0]) && (s[1..] == " " || s[1..] == "\n" || s[1..] == "\r\n")
  {
  }

  lemma EndShape(chunk: string, b: int, s: string)
    requires Occurs(chunk, s, b - 1) && |s| >= 2
    ensures 0 < b && b + |s| - 1 <= |chunk| && chunk[b - 1] == s[0] && chunk[b..b + |s| - 1] == s[1..]
  {
    assert chunk[b - 1..b - 1 + |s|][1..] == chunk[b..b + |s| - 1];
  }

  lemma EndWith(mark: char, gap: string) returns (k: nat)
    requires IsMark(mark) && (gap == " " || gap == "\n" || gap == "\r\n")
    ensures k < |SEPARATORS| && SEPARATORS[k] == [mark] + gap
  {
    var row := if gap == " " then 0 else if gap == "\n" then 3 else 6;
    k := row + if mark == '.' then 0 else if mark == '!' then 1 else 2;
  }

  lemma EndStands(chunk: string, b: int, mark: char, gap: string)
    requires 0 < b && b + |gap| <= |chunk| && chunk[b - 1] == mark && chunk[b..b + |gap|] == gap
    ensures Occurs(chunk, [mark] + gap, b - 1)
  {
    assert chunk[b - 1..b + |gap|] == [chunk[b - 1]] + chunk[b..b + |gap|];
  }

  /** `b` is the rightmost end among the first `n` separators, or -1. */
  ghost predicate BestOf(chunk: string, n: nat, b: int)
    requires n <= |SEPARATORS|
  {
    && (b == -1 || exists k :: 0 <= k < n && Occurs(chunk, SEPARATORS[k], b - 1))
    && forall k, p :: 0 <= k < n && Occurs(chunk, SEPARATORS[k], p) ==> p + 1 <= b
  }

  /** One separator more: comparing its position with the end found so far is enough. */
  lemma BestStep(chunk: string, n: nat, b: int, pos: int)
    requires n < |SEPARATORS| && BestOf(chunk, n, b) && SEPARATORS[n] != ""
    requires pos == RFind(chunk, SEPARATORS[n])
    ensures BestOf(chunk, n + 1, if pos > b then pos + 1 else b)
  {
    if pos > b {
      assert Occurs(chunk, SEPARATORS[n], pos + 1 - 1);
    } else if b != -1 {
      NotAtEnd(chunk, n, b, pos);
    }
    BestWith(chunk, n, b, if pos > b then pos + 1 else b, pos);
  }

  lemma BestWith(chunk: string, n: nat, b: int, best: int, pos: int)
    requires n < |SEPARATORS| && BestOf(chunk, n, b)
    requires b <= best && forall q :: Occurs(chunk, SEPARATORS[n], q) ==> q + 1 <= best
    requires best == b || (pos >= 0 && best == pos + 1 && Occurs(chunk, SEPARATORS[n], pos))
    ensures BestOf(chunk, n + 1, best)
  {
    if best != -1 && best != b {
      assert Occurs(chunk, SEPARATORS[n], best - 1);
    }
  }

  /** A separator that starts no later than an end found before starts before it: a mark is not white space. */
  lemma NotAtEnd(chunk: string, n: nat, b: int, pos: int)
    requires n < |SEPARATORS| && pos <= b && (pos >= 0 ==> Occurs(chunk, SEPARATORS[n], pos))
    requires exists k :: 0 <= k < n && Occurs(chunk, SEPARATORS[k], b - 1)
    ensures pos < b
  {
    var k :| 0 <= k < n && Occurs(chunk, SEPARATORS[k], b - 1);
    OccurrenceShape(chunk, k, b - 1);
    if pos >= 0 { OccurrenceShape(chunk, n, pos); }
  }

  /** The loop over the separators. Their order makes no difference: it finds the rightmost end. */
  method LastSentenceEnd(chunk: string) returns (b: int)
    ensures b == -1 || (0 < b < |chunk| && SentenceEnd(chunk, b))
    ensures forall e :: e > b ==> !SentenceEnd(chunk, e)
    ensures b == -1 ==> forall e :: !SentenceEnd(chunk, e)
  {
    b := -1;
    for k := 0 to |SEPARATORS|
      invariant BestOf(chunk, k, b)
    {
      SeparatorShape(k);
      var pos := RFind(chunk, SEPARATORS[k]);
      BestStep(chunk, k, b, pos);
      if pos > b {
        b := pos + 1;
      }
    }
    forall e | SentenceEnd(chunk, e)
      ensures 0 < e <= b && e < |chunk|
    {
      var k :| 0 <= k < |SEPARATORS| && Occurs(chunk, SEPARATORS[k], e - 1);
      OccurrenceShape(chunk, k, e - 1);
    }
    assert b != -1 ==> SentenceEnd(chunk, b);
  }

  /** The end of the next chunk of a text that is too long. */
  method NextCut(text: string, maxLen: nat) returns (n: nat)
    requires 0 < maxLen < |text|
    ensures n == CutOf(text, maxLen)
  {
    var chunk := text[..maxLen];
    var b := LastSentenceEnd(chunk);
    assert b == LastEnd(chunk, maxLen) by { LastEndIs(chunk, maxLen, b); }
    if b > 0 {
      n := b;
    } else {
      var space := RFind(chunk, " ");
      if space > 0 {
        n := space;
      } else {
        n := maxLen;
      }
    }
  }

  lemma LastEndIs(chunk: string, n: nat, b: int)
    requires b == -1 || (0 <= b < n && SentenceEnd(chunk, b))
    requires forall e :: e > b ==> !SentenceEnd(chunk, e)
    ensures b == LastEnd(chunk, n)
  {
  }

  method Split(input: string, maxLen: nat) returns (chunks: seq<string>)
    requires maxLen > 0
    ensures chunks == if input == "" then [""] else Pieces(input, maxLen)
  {
    if |input| <= maxLen {
      return [input];
    }
    var text := input;
    chunks := [];
    while text != ""
      invariant chunks + Pieces(text, maxLen) == Pieces(input, maxLen)
      decreases |text|
    {
      if |text| <= maxLen {
        chunks := chunks + [text];
        break;
      }
      var n := NextCut(text, maxLen);
      Regroup(chunks, [text[..n]], Pieces(LStrip(text[n..]), maxLen));
      chunks := chunks + [text[..n]];
      text := LStrip(text[n..]);
    }
  }

  // ----- What every splitting has -----

  predicate Fit(chunks: seq<string>, maxLen: nat) {
    forall i :: 0 <= i < |chunks| ==> 0 < |chunks[i]| <= maxLen
  }

  lemma FitFrom(first: string, rest: seq<string>, maxLen: nat)
    requires 0 < |first| <= maxLen && Fit(rest, maxLen)
    ensures Fit([first] + rest, maxLen)
  {
  }

  lemma {:induction false} ChunksFit(text: string, maxLen: nat)
    requires maxLen > 0
    ensures Fit(Pieces(text, maxLen), maxLen)
    decreases |text|
  {
    if |text| > maxLen {
      var n := CutOf(text, maxLen);
      ChunksFit(LStrip(text[n..]), maxLen);
      FitFrom(text[..n], Pieces(LStrip(text[n..]), maxLen), maxLen);
    }
  }

  /**
   A chunk that is not the last ends at the rightmost sentence end of its window, whatever the order of
   the separators; without one at the rightmost space that is not the first character; else at the limit.
   */
  lemma CutIsRightmost(text: string, maxLen: nat, e: int)
    requires 0 < maxLen < |text| && SentenceEnd(text[..maxLen], e)
    ensures e <= CutOf(text, maxLen) && SentenceEnd(text[..maxLen], CutOf(text, maxLen))
  {
    var chunk := text[..maxLen];
    var k :| 0 <= k < |SEPARATORS| && Occurs(chunk, SEPARATORS[k], e - 1);
    OccurrenceShape(chunk, k, e - 1);
    assert 0 < e < maxLen;
  }

  lemma CutWithoutSentence(text: string, maxLen: nat)
    requires 0 < maxLen < |text| && forall e :: !SentenceEnd(text[..maxLen], e)
    ensures var n := CutOf(text, maxLen);
            if exists p :: p > 0 && Occurs(text[..maxLen], " ", p)
            then Occurs(text[..maxLen], " ", n) && forall p :: p > n ==> !Occurs(text[..maxLen], " ", p)
            else n == maxLen
  {
  }

  /** The text is the first chunk, then white space up to `b`, then the rest in the same way. */
  ghost predicate WovenAt(text: string, chunks: seq<string>, b: nat)
    requires chunks != []
    decreases |chunks|, 0
  {
    var n := |chunks[0]|;
    n <= b <= |text| && text[..n] == chunks[0] && Blank(text[n..b]) && Woven(text[b..], chunks[1..])
  }

  /** The text is chunk, blank, chunk, blank and so on; each blank may be empty. */
  ghost predicate Woven(text: string, chunks: seq<string>)
    decreases |chunks|, 1
  {
    if chunks == [] then text == "" else exists b: nat :: WovenAt(text, chunks, b)
  }

  lemma WeaveOn(text: string, n: nat, rest: seq<string>)
    requires n <= |text| && Woven(LStrip(text[n..]), rest)
    ensures Woven(text, [text[..n]] + rest)
  {
    var chunks, tail := [text[..n]] + rest, text[n..];
    var dropped := |tail| - |LStrip(tail)|;
    assert text[n..][..dropped] == text[n..n + dropped];
    assert text[n + dropped..] == tail[dropped..];
    assert chunks[1..] == rest;
    assert WovenAt(text, chunks, n + dropped);
  }

  /** Nothing is lost but white space after cuts, and nothing inside a chunk changes. */
  lemma {:induction false} NothingIsLost(text: string, maxLen: nat)
    requires maxLen > 0
    ensures Woven(text, Pieces(text, maxLen))
    decreases |text|
  {
    if text == "" {
    } else if |text| <= maxLen {
      assert text[..|text|] == text && text[|text|..] == "";
      WeaveOn(text, |text|, []);
      assert [text] + [] == [text];
    } else {
      var n := CutOf(text, maxLen);
      NothingIsLost(LStrip(text[n..]), maxLen);
      WeaveOn(text, n, Pieces(LStrip(text[n..]), maxLen));
    }
  }
}
