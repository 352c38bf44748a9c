/**
 The incremental index of subtitle directories in oldrun.py against a full rescan. What a directory holds
 is a fixed function of the directory; the three lists are kept in one saved record.
 */
module DirIndex {
  import opened Text
  import opened Sequences

  type Dir = string

  datatype Entry = Entry(name: string, path: string)

  datatype Lists = Lists(zh: seq<Entry>, en: seq<Entry>, zhEn: seq<Entry>)

  datatype Kind = Zh | En | ZhEn

  /** The index file. */
  datatype Saved = Saved(lists: Lists, scanned: seq<Dir>)

  function Of(l: Lists, kind: Kind): seq<Entry> {
    match kind
    case Zh => l.zh
    case En => l.en
    case ZhEn => l.zhEn
  }

  // ----- Sorting by name -----

  /** Python's order on strings: by code points, a prefix first. */
  predicate AtMost(a: string, b: string) {
    a == "" || (b != "" && (a[0] < b[0] || (a[0] == b[0] && AtMost(a[1..], b[1..]))))
  }

  lemma {:induction false} AtMostTotal(a: string, b: string)
    ensures AtMost(a, b) || AtMost(b, a)
  {
    if a != "" && b != "" { AtMostTotal(a[1..], b[1..]); }
  }

  lemma {:induction false} AtMostTransitive(a: string, b: string, c: string)
    requires AtMost(a, b) && AtMost(b, c)
    ensures AtMost(a, c)
  {
    if a != "" && a[0] == b[0] && b[0] == c[0] { AtMostTransitive(a[1..], b[1..], c[1..]); }
  }

  predicate SortedByName(entries: seq<Entry>) {
    forall i, j :: 0 <= i < j < |entries| ==> AtMost(entries[i].name, entries[j].name)
  }

  /** Each entry is at most the next. */
  predicate Chain(entries: seq<Entry>) {
    |entries| < 2 || (AtMost(entries[0].name, entries[1].name) && Chain(entries[1..]))
  }

  lemma {:induction false} ChainFrom(entries: seq<Entry>, j: nat)
    requires Chain(entries) && 0 < j < |entries|
    ensures AtMost(entries[0].name, entries[j].name)
  {
    if j > 1 {
      ChainFrom(entries[1..], j - 1);
      AtMostTransitive(entries[0].name, entries[1].name, entries[j].name);
    }
  }

  lemma {:induction false} ChainIsSorted(entries: seq<Entry>)
    requires Chain(entries)
    ensures SortedByName(entries)
  {
    if |entries| >= 2 {
      ChainIsSorted(entries[1..]);
      forall i, j | 0 <= i < j < |entries|
        ensures AtMost(entries[i].name, entries[j].name)
      {
        if i == 0 {
          ChainFrom(entries, j);
        } else {
          assert AtMost(entries[1..][i - 1].name, entries[1..][j - 1].name);
        }
      }
    }
  }

  /** After the entries that are at most `e`: the sort is stable. */
  function Insert(e: Entry, entries: seq<Entry>): seq<Entry> {
    if entries == [] then [e]
    else if AtMost(entries[0].name, e.name) then [entries[0]] + Insert(e, entries[1..])
    else [e] + entries
  }

  /** `list.sort(key=name)`. */
  function Sort(entries: seq<Entry>): seq<Entry> {
    if entries == [] then [] else Insert(entries[|entries| - 1], Sort(entries[..|entries| - 1]))
  }

  lemma {:induction false} InsertAdds(e: Entry, entries: seq<Entry>)
    ensures multiset(Insert(e, entries)) == multiset(entries) + multiset{e}
  {
    if entries != [] {
      InsertAdds(e, entries[1..]);
      assert entries == [entries[0]] + entries[1..];
    }
  }

  lemma {:induction false} InsertChains(e: Entry, entries: seq<Entry>)
    requires Chain(entries)
    ensures Chain(Insert(e, entries))
    ensures entries != [] && AtMost(entries[0].name, e.name) ==> Insert(e, entries)[0] == entries[0]
  {
    if entries != [] {
      AtMostTotal(entries[0].name, e.name);
      InsertChains(e, entries[1..]);
      if AtMost(entries[0].name, e.name) {
        var r := Insert(e, entries[1..]);
        assert Insert(e, entries)[1..] == r;
        assert r[0] == e || r[0] == entries[1];
      } else {
        assert Insert(e, entries)[1..] == entries;
      }
    }
  }

  lemma InsertSorts(e: Entry, front: seq<Entry>, sorted: seq<Entry>)
    requires Chain(sorted) && multiset(sorted) == multiset(front)
    ensures Chain(Insert(e, sorted)) && multiset(Insert(e, sorted)) == multiset(front + [e])
  {
    InsertChains(e, sorted);
    InsertAdds(e, sorted);
  }

  lemma {:induction false} SortSorts(entries: seq<Entry>)
    ensures Chain(Sort(entries)) && multiset(Sort(entries)) == multiset(entries)
  {
    if entries != [] {
      var n := |entries| - 1;
      SortSorts(entries[..n]);
      InsertSorts(entries[n], entries[..n], Sort(entries[..n]));
      assert entries[..n] + [entries[n]] == entries;
    }
  }

  /** The entries with this name, in order. */
  function Named(entries: seq<Entry>, name: string): seq<Entry> {
    if entries == [] then [] else (if entries[0].name == name then [entries[0]] else []) + Named(entries[1..], name)
  }

  lemma {:induction false} NoneNamed(entries: seq<Entry>, name: string)
    requires forall i :: 0 <= i < |entries| ==> entries[i].name != name
    ensures Named(entries, name) == []
  {
    if entries != [] { NoneNamed(entries[1..], name); }
  }

  /** Behind an entry that is greater there is none of that name. */
  lemma GreaterBehind(entries: seq<Entry>, name: string)
    requires Chain(entries) && entries != [] && !AtMost(entries[0].name, name)
    ensures Named(entries, name) == []
  {
    forall i | 0 <= i < |entries|
      ensures entries[i].name != name
    {
      if i > 0 {
        ChainFrom(entries, i);
      } else {
        AtMostTotal(name, name);
      }
    }
    NoneNamed(entries, name);
  }

  lemma NamedFrom(e: Entry, rest: seq<Entry>, name: string)
    ensures Named([e] + rest, name) == (if e.name == name then [e] else []) + Named(rest, name)
  {
    assert ([e] + rest)[1..] == rest;
  }

  lemma {:induction false} InsertStays(e: Entry, entries: seq<Entry>, name: string)
    requires Chain(entries)
    ensures Named(Insert(e, entries), name) == Named(entries, name) + if e.name == name then [e] else []
  {
    if entries == [] {
      NamedFrom(e, [], name);
    } else if AtMost(entries[0].name, e.name) {
      InsertStays(e, entries[1..], name);
      NamedFrom(entries[0], Insert(e, entries[1..]), name);
    } else {
      NamedFrom(e, entries, name);
      if e.name == name { GreaterBehind(entries, name); }
    }
  }

  lemma {:induction false} NamedAppend(entries: seq<Entry>, e: Entry, name: string)
    ensures Named(entries + [e], name) == Named(entries, name) + if e.name == name then [e] else []
  {
    if entries == [] {
      NamedFrom(e, [], name);
      assert [] + [e] == [e] + [];
    } else {
      NamedAppend(entries[1..], e, name);
      assert (entries + [e])[1..] == entries[1..] + [e];
    }
  }

  /** Entries of the same name keep their order. */
  lemma {:induction false} SortIsStable(entries: seq<Entry>, name: string)
    ensures Named(Sort(entries), name) == Named(entries, name)
  {
    if entries != [] {
      var n := |entries| - 1;
      SortIsStable(entries[..n], name);
      SortSorts(entries[..n]);
      InsertStays(entries[n], Sort(entries[..n]), name);
      NamedAppend(entries[..n], entries[n], name);
      assert entries[..n] + [entries[n]] == entries;
    }
  }

  function SortAll(l: Lists): Lists {
    Lists(Sort(l.zh), Sort(l.en), Sort(l.zhEn))
  }

  function Extend(l: Lists, more: Lists): Lists {
    Lists(l.zh + more.zh, l.en + more.en, l.zhEn + more.zhEn)
  }

  // ----- Whole directories -----

  /** All entries of one kind in the given directories, with multiplicity. */
  function Union(dirs: seq<Dir>, scan: Dir -> Lists, kind: Kind): multiset<Entry> {
    if dirs == [] then multiset{}
    else Union(dirs[..|dirs| - 1], scan, kind) + multiset(Of(scan(dirs[|dirs| - 1]), kind))
  }

  /** The directories of `dirs` that are, or are not, in `others`. */
  function Pick(dirs: seq<Dir>, others: seq<Dir>, present: bool): (r: seq<Dir>)
    ensures forall d :: d in r <==> d in dirs && (d in others <==> present)
    ensures Distinct(dirs) ==> Distinct(r)
  {
    if dirs == [] then []
    else
      var n := |dirs| - 1;
      Pick(dirs[..n], others, present) + if (dirs[n] in others) == present then [dirs[n]] else []
  }

  lemma UnionOne(dirs: seq<Dir>, d: Dir, scan: Dir -> Lists, kind: Kind)
    ensures Union(dirs + [d], scan, kind) == Union(dirs, scan, kind) + multiset(Of(scan(d), kind))
  {
    assert (dirs + [d])[..|dirs|] == dirs;
  }

  lemma PickOne(dirs: seq<Dir>, others: seq<Dir>, n: nat)
    requires |dirs| == n + 1
    ensures var present := dirs[n] in others;
            Pick(dirs, others, present) == Pick(dirs[..n], others, present) + [dirs[n]]
            && Pick(dirs, others, !present) == Pick(dirs[..n], others, !present)
  {
  }

  lemma Swap(a: multiset<Entry>, b: multiset<Entry>, c: multiset<Entry>)
    ensures a + b + c == a + c + b && a + b + c == a + (b + c)
  {
  }

  lemma {:induction false} UnionSplits(dirs: seq<Dir>, others: seq<Dir>, scan: Dir -> Lists, kind: Kind)
    ensures Union(dirs, scan, kind)
            == Union(Pick(dirs, others, true), scan, kind) + Union(Pick(dirs, others, false), scan, kind)
  {
    if dirs != [] {
      var n := |dirs| - 1;
      UnionSplits(dirs[..n], others, scan, kind);
      PickOne(dirs, others, n);
      UnionOne(Pick(dirs[..n], others, dirs[n] in others), dirs[n], scan, kind);
      Swap(Union(Pick(dirs[..n], others, true), scan, kind), Union(Pick(dirs[..n], others, false), scan, kind),
           multiset(Of(scan(dirs[n]), kind)));
    }
  }

  lemma {:induction false} UnionConcat(one: seq<Dir>, other: seq<Dir>, scan: Dir -> Lists, kind: Kind)
    ensures Union(one + other, scan, kind) == Union(one, scan, kind) + Union(other, scan, kind)
  {
    if other == [] {
      assert one + other == one;
    } else {
      var front, last := other[..|other| - 1], other[|other| - 1];
      UnionConcat(one, front, scan, kind);
      UnionOne(one + front, last, scan, kind);
      UnionOne(front, last, scan, kind);
      AppendLast(one, other);
    }
  }

  lemma UnionWithout(dirs: seq<Dir>, i: nat, scan: Dir -> Lists, kind: Kind)
    requires i < |dirs|
    ensures Union(dirs, scan, kind)
            == Union(dirs[..i] + dirs[i + 1..], scan, kind) + multiset(Of(scan(dirs[i]), kind))
  {
    SplitAt(dirs, i);
    UnionConcat(dirs[..i] + [dirs[i]], dirs[i + 1..], scan, kind);
    UnionOne(dirs[..i], dirs[i], scan, kind);
    UnionConcat(dirs[..i], dirs[i + 1..], scan, kind);
  }

  ghost predicate SameDirs(one: seq<Dir>, other: seq<Dir>) {
    forall d :: d in one <==> d in other
  }

  lemma SameWithout(one: seq<Dir>, other: seq<Dir>, i: nat)
    requires Distinct(one) && Distinct(other) && SameDirs(one, other)
    requires one != [] && i < |other| && other[i] == one[|one| - 1]
    ensures SameDirs(one[..|one| - 1], other[..i] + other[i + 1..])
    ensures Distinct(other[..i] + other[i + 1..])
  {
    var rest := other[..i] + other[i + 1..];
    forall d
      ensures d in one[..|one| - 1] <==> d in rest
    {
      assert d in one <==> d in one[..|one| - 1] || d == one[|one| - 1];
      assert d in other <==> d in rest || d == other[i];
    }
  }

  /** The same directories in another order hold the same entries. */
  lemma {:induction false} UnionReordered(one: seq<Dir>, other: seq<Dir>, scan: Dir -> Lists, kind: Kind)
    requires Distinct(one) && Distinct(other) && SameDirs(one, other)
    ensures Union(one, scan, kind) == Union(other, scan, kind)
    decreases |one|
  {
    if one != [] {
      var n := |one| - 1;
      assert one[n] in other;
      var i :| 0 <= i < |other| && other[i] == one[n];
      SameWithout(one, other, i);
      UnionWithout(other, i, scan, kind);
      UnionReordered(one[..n], other[..i] + other[i + 1..], scan, kind);
    } else {
      NobodyThere(other);
    }
  }

  lemma NobodyThere(dirs: seq<Dir>)
    ensures dirs == [] <==> forall d :: d !in dirs
  {
    if dirs != [] { assert dirs[0] in dirs; }
  }

  /** The directories that vanished since the last scan. */
  function Gone(scanned: seq<Dir>, current: seq<Dir>): seq<Dir> {
    Pick(scanned, current, false)
  }

  /** Adding the new directories to the scanned ones gives the current ones, plus what is gone. */
  lemma IncrementCovers(scanned: seq<Dir>, current: seq<Dir>, scan: Dir -> Lists, kind: Kind)
    requires Distinct(scanned) && Distinct(current)
    ensures Union(scanned, scan, kind) + Union(Pick(current, scanned, false), scan, kind)
            == Union(current, scan, kind) + Union(Gone(scanned, current), scan, kind)
  {
    UnionSplits(scanned, current, scan, kind);
    UnionSplits(current, scanned, scan, kind);
    UnionReordered(Pick(scanned, current, true), Pick(current, scanned, true), scan, kind);
  }

  // ----- The collector, as a function of the saved index -----

  /** The lists grown by the entries of these directories. */
  function Extended(start: Lists, dirs: seq<Dir>, scan: Dir -> Lists): Lists {
    if dirs == [] then start else Extend(Extended(start, dirs[..|dirs| - 1], scan), scan(dirs[|dirs| - 1]))
  }

  const NOTHING := Lists([], [], [])

  /** A call: whether a rescan is forced, and the directories in name order, or None without the parent directory. */
  datatype Call = Call(force: bool, current: Option<seq<Dir>>)

  datatype Outcome = Outcome(lists: Lists, changed: bool, index: Option<Saved>)

  function New(saved: Saved, current: seq<Dir>): seq<Dir> {
    Pick(current, saved.scanned, false)
  }

  /** `_collect_incremental`. */
  function Collected(index: Option<Saved>, call: Call, scan: Dir -> Lists): Outcome {
    if call.current.None? then Outcome(NOTHING, false, index)
    else
      var current := call.current.value;
      if call.force || index.None? then
        var lists := SortAll(Extended(NOTHING, current, scan));
        Outcome(lists, true, Some(Saved(lists, current)))
      else if New(index.value, current) == [] then Outcome(index.value.lists, false, index)
      else
        var lists := SortAll(Extended(index.value.lists, New(index.value, current), scan));
        Outcome(lists, true, Some(Saved(lists, current)))
  }

  class Collector {
    var index: Option<Saved>

    method ScanInto(start: Lists, dirs: seq<Dir>, scan: Dir -> Lists) returns (lists: Lists)
      ensures lists == SortAll(Extended(start, dirs, scan))
    {
      lists := start;
      for k := 0 to |dirs|
        invariant lists == Extended(start, dirs[..k], scan)
      {
        assert dirs[..k + 1][..k] == dirs[..k];
        lists := Extend(lists, scan(dirs[k]));
      }
      assert dirs[..|dirs|] == dirs;
      lists := SortAll(lists);
    }

    method Collect(call: Call, scan: Dir -> Lists) returns (lists: Lists, changed: bool)
      modifies this
      ensures Outcome(lists, changed, index) == Collected(old(index), call, scan)
    {
      if call.current.None? {
        return NOTHING, false;
      }
      var current := call.current.value;
      if call.force || index.None? {
        lists := ScanInto(NOTHING, current, scan);
        changed := true;
        index := Some(Saved(lists, current));
      } else {
        var unseen := New(index.value, current);
        if unseen == [] {
          return index.value.lists, false;
        }
        lists := ScanInto(index.value.lists, unseen, scan);
        changed := true;
        index := Some(Saved(lists, current));
      }
    }
  }

  // ----- Whole histories of calls -----

  /** The list of each kind is sorted and holds exactly the entries of these directories. */
  ghost predicate Covers(lists: Lists, dirs: seq<Dir>, scan: Dir -> Lists) {
    forall kind :: SortedByName(Of(lists, kind)) && multiset(Of(lists, kind)) == Union(dirs, scan, kind)
  }

  function IndexAfter(calls: seq<Call>, scan: Dir -> Lists): Option<Saved> {
    if calls == [] then None
    else Collected(IndexAfter(calls[..|calls| - 1], scan), calls[|calls| - 1], scan).index
  }

  /**
   The directories that the calls since the last full scan dropped from the index, each as often as it was:
   their entries stay in the lists.
   */
  function Dropped(calls: seq<Call>, scan: Dir -> Lists): seq<Dir> {
    if calls == [] then []
    else
      var before, call := calls[..|calls| - 1], calls[|calls| - 1];
      var index := IndexAfter(before, scan);
      if call.current.None? then Dropped(before, scan)
      else if call.force || index.None? then []
      else if New(index.value, call.current.value) == [] then Dropped(before, scan)
      else Dropped(before, scan) + Gone(index.value.scanned, call.current.value)
  }

  /** `listdir` names no directory twice. */
  ghost predicate RealCalls(calls: seq<Call>) {
    forall i :: 0 <= i < |calls| && calls[i].current.Some? ==> Distinct(calls[i].current.value)
  }

  /** The lists hold the entries of these directories and of those dropped. */
  ghost predicate Accounts(lists: Lists, dirs: seq<Dir>, dropped: seq<Dir>, scan: Dir -> Lists) {
    forall kind :: SortedByName(Of(lists, kind))
                   && multiset(Of(lists, kind)) == Union(dirs, scan, kind) + Union(dropped, scan, kind)
  }

  lemma {:induction false} ExtendedHolds(start: Lists, dirs: seq<Dir>, scan: Dir -> Lists, kind: Kind)
    ensures multiset(Of(Extended(start, dirs, scan), kind)) == multiset(Of(start, kind)) + Union(dirs, scan, kind)
  {
    if dirs != [] {
      var n := |dirs| - 1;
      ExtendedHolds(start, dirs[..n], scan, kind);
      assert Of(Extended(start, dirs, scan), kind) == Of(Extended(start, dirs[..n], scan), kind) + Of(scan(dirs[n]), kind);
    }
  }

  lemma SortAllSorts(lists: Lists, kind: Kind)
    ensures SortedByName(Of(SortAll(lists), kind)) && multiset(Of(SortAll(lists), kind)) == multiset(Of(lists, kind))
  {
    SortSorts(Of(lists, kind));
    ChainIsSorted(Sort(Of(lists, kind)));
    assert Of(SortAll(lists), kind) == Sort(Of(lists, kind));
  }

  lemma FullScanAccounts(current: seq<Dir>, scan: Dir -> Lists)
    ensures Accounts(SortAll(Extended(NOTHING, current, scan)), current, [], scan)
  {
    forall kind
      ensures var lists := Of(SortAll(Extended(NOTHING, current, scan)), kind);
              SortedByName(lists) && multiset(lists) == Union(current, scan, kind) + Union([], scan, kind)
    {
      SortAllSorts(Extended(NOTHING, current, scan), kind);
      ExtendedHolds(NOTHING, current, scan, kind);
      assert Of(NOTHING, kind) == [];
    }
  }

  lemma Balance(scanned: multiset<Entry>, unseen: multiset<Entry>, current: multiset<Entry>, gone: multiset<Entry>,
                dropped: multiset<Entry>)
    requires scanned + unseen == current + gone
    ensures (scanned + dropped) + unseen == current + (dropped + gone)
  {
    Swap(scanned, dropped, unseen);
    Swap(current, gone, dropped);
    Swap(current, dropped, gone);
  }

  lemma IncrementKind(saved: Saved, dropped: seq<Dir>, current: seq<Dir>, scan: Dir -> Lists, kind: Kind)
    requires Distinct(saved.scanned) && Distinct(current)
    requires multiset(Of(saved.lists, kind)) == Union(saved.scanned, scan, kind) + Union(dropped, scan, kind)
    ensures var grown := Of(SortAll(Extended(saved.lists, New(saved, current), scan)), kind);
            SortedByName(grown)
            && multiset(grown) == Union(current, scan, kind) + Union(dropped + Gone(saved.scanned, current), scan, kind)
  {
    var unseen := New(saved, current);
    SortAllSorts(Extended(saved.lists, unseen, scan), kind);
    ExtendedHolds(saved.lists, unseen, scan, kind);
    IncrementCovers(saved.scanned, current, scan, kind);
    UnionConcat(dropped, Gone(saved.scanned, current), scan, kind);
    Balance(Union(saved.scanned, scan, kind), Union(unseen, scan, kind), Union(current, scan, kind),
            Union(Gone(saved.scanned, current), scan, kind), Union(dropped, scan, kind));
  }

  lemma IncrementAccounts(saved: Saved, dropped: seq<Dir>, current: seq<Dir>, scan: Dir -> Lists)
    requires Distinct(saved.scanned) && Distinct(current) && Accounts(saved.lists, saved.scanned, dropped, scan)
    ensures Accounts(SortAll(Extended(saved.lists, New(saved, current), scan)), current,
                     dropped + Gone(saved.scanned, current), scan)
  {
    var lists := SortAll(Extended(saved.lists, New(saved, current), scan));
    var all := dropped + Gone(saved.scanned, current);
    forall kind
      ensures SortedByName(Of(lists, kind)) && multiset(Of(lists, kind)) == Union(current, scan, kind) + Union(all, scan, kind)
    {
      IncrementKind(saved, dropped, current, scan, kind);
    }
  }

  /** The saved index accounts for every directory scanned since the last full scan. */
  lemma {:induction false} IndexAccounts(calls: seq<Call>, scan: Dir -> Lists)
    requires RealCalls(calls)
    ensures var index := IndexAfter(calls, scan);
            index.Some? ==> Distinct(index.value.scanned)
                            && Accounts(index.value.lists, index.value.scanned, Dropped(calls, scan), scan)
  {
    if calls != [] {
      var before, call := calls[..|calls| - 1], calls[|calls| - 1];
      IndexAccounts(before, scan);
      var index := IndexAfter(before, scan);
      if call.current.Some? {
        if call.force || index.None? {
          FullScanAccounts(call.current.value, scan);
        } else {
          IncrementAccounts(index.value, Dropped(before, scan), call.current.value, scan);
        }
      }
    }
  }

  /** The directories hold no entries of any kind. */
  ghost predicate HoldNothing(dirs: seq<Dir>, scan: Dir -> Lists) {
    forall kind :: Union(dirs, scan, kind) == multiset{}
  }

  lemma Cancel(all: multiset<Entry>, some: multiset<Entry>, rest: multiset<Entry>)
    requires all == some + rest
    ensures all == some <==> rest == multiset{}
  {
    if all == some {
      forall e
        ensures rest[e] == 0
      {
        assert all[e] == some[e] + rest[e];
      }
    }
  }

  lemma AccountsCoversIff(lists: Lists, dirs: seq<Dir>, dropped: seq<Dir>, scan: Dir -> Lists)
    requires Accounts(lists, dirs, dropped, scan)
    ensures Covers(lists, dirs, scan) <==> HoldNothing(dropped, scan)
  {
    forall kind
      ensures multiset(Of(lists, kind)) == Union(dirs, scan, kind) <==> Union(dropped, scan, kind) == multiset{}
    {
      Cancel(multiset(Of(lists, kind)), Union(dirs, scan, kind), Union(dropped, scan, kind));
    }
  }

  /** What a call leaves out of account: all dropped directories, and those that are gone now. */
  function Missed(calls: seq<Call>, call: Call, scan: Dir -> Lists): seq<Dir> {
    var index := IndexAfter(calls, scan);
    if call.current.None? || call.force || index.None? then []
    else Dropped(calls, scan) + Gone(index.value.scanned, call.current.value)
  }

  /**
   After any history of calls, the next one returns what a full rescan would, exactly when every directory
   that has gone since the last full scan, each time one has, held nothing.
   */
  lemma CallRightIff(calls: seq<Call>, call: Call, scan: Dir -> Lists)
    requires RealCalls(calls) && call.current.Some? && Distinct(call.current.value)
    ensures Covers(Collected(IndexAfter(calls, scan), call, scan).lists, call.current.value, scan)
       <==> HoldNothing(Missed(calls, call, scan), scan)
  {
    var index, current := IndexAfter(calls, scan), call.current.value;
    IndexAccounts(calls, scan);
    if call.force || index.None? {
      FullScanAccounts(current, scan);
    } else {
      if New(index.value, current) == [] {
        UnchangedAccounts(index.value, Dropped(calls, scan), current, scan);
      }
      IncrementAccounts(index.value, Dropped(calls, scan), current, scan);
    }
    AccountsCoversIff(Collected(index, call, scan).lists, current, Missed(calls, call, scan), scan);
  }

  /** Without new directories the scanned ones are those present and those gone. */
  lemma UnchangedCovers(saved: Saved, current: seq<Dir>, scan: Dir -> Lists, kind: Kind)
    requires Distinct(saved.scanned) && Distinct(current) && New(saved, current) == []
    ensures Union(saved.scanned, scan, kind)
            == Union(current, scan, kind) + Union(Gone(saved.scanned, current), scan, kind)
  {
    IncrementCovers(saved.scanned, current, scan, kind);
    assert Union(New(saved, current), scan, kind) == multiset{};
  }

  lemma UnchangedAccounts(saved: Saved, dropped: seq<Dir>, current: seq<Dir>, scan: Dir -> Lists)
    requires Distinct(saved.scanned) && Distinct(current) && Accounts(saved.lists, saved.scanned, dropped, scan)
    requires New(saved, current) == []
    ensures Accounts(saved.lists, current, dropped + Gone(saved.scanned, current), scan)
  {
    forall kind
      ensures multiset(Of(saved.lists, kind))
              == Union(current, scan, kind) + Union(dropped + Gone(saved.scanned, current), scan, kind)
    {
      UnchangedCovers(saved, current, scan, kind);
      UnionConcat(dropped, Gone(saved.scanned, current), scan, kind);
    }
  }

  /** Each list of directories has those of every earlier one. */
  ghost predicate OnlyAdds(calls: seq<Call>) {
    forall i, j :: 0 <= i < j < |calls| && calls[i].current.Some? && calls[j].current.Some? ==>
      forall d :: d in calls[i].current.value ==> d in calls[j].current.value
  }

  /** The saved directories are those of an earlier call. */
  lemma {:induction false} ScannedOnce(calls: seq<Call>, scan: Dir -> Lists) returns (i: nat)
    requires IndexAfter(calls, scan).Some?
    ensures i < |calls| && calls[i].current == Some(IndexAfter(calls, scan).value.scanned)
  {
    var n := |calls| - 1;
    if IndexAfter(calls, scan) == IndexAfter(calls[..n], scan) {
      i := ScannedOnce(calls[..n], scan);
    } else {
      i := n;
    }
  }

  lemma NothingGone(calls: seq<Call>, n: nat, scan: Dir -> Lists)
    requires OnlyAdds(calls) && n < |calls| && calls[n].current.Some? && IndexAfter(calls[..n], scan).Some?
    ensures Gone(IndexAfter(calls[..n], scan).value.scanned, calls[n].current.value) == []
  {
    var i := ScannedOnce(calls[..n], scan);
    assert calls[i].current == Some(IndexAfter(calls[..n], scan).value.scanned);
    NobodyThere(Gone(IndexAfter(calls[..n], scan).value.scanned, calls[n].current.value));
  }

  lemma {:induction false} NothingDropped(calls: seq<Call>, scan: Dir -> Lists)
    requires OnlyAdds(calls)
    ensures Dropped(calls, scan) == []
  {
    if calls != [] {
      var n := |calls| - 1;
      NothingDropped(calls[..n], scan);
      if calls[n].current.Some? && IndexAfter(calls[..n], scan).Some? { NothingGone(calls, n, scan); }
    }
  }

  /** While directories are only added, every call returns what a full rescan would. */
  lemma AddingIsRescan(calls: seq<Call>, call: Call, scan: Dir -> Lists)
    requires RealCalls(calls + [call]) && OnlyAdds(calls + [call]) && call.current.Some?
    ensures Covers(Collected(IndexAfter(calls, scan), call, scan).lists, call.current.value, scan)
  {
    var all := calls + [call];
    assert all[..|calls|] == calls && all[|calls|] == call;
    assert forall i :: 0 <= i < |calls| ==> calls[i] == all[i];
    CallRightIff(calls, call, scan);
    NothingDropped(calls, scan);
    if IndexAfter(calls, scan).Some? { NothingGone(all, |calls|, scan); }
    assert Missed(calls, call, scan) == [];
  }

  /** A call says that something changed exactly when it scanned: by force, without an index, or a new directory. */
  lemma ChangedIff(index: Option<Saved>, call: Call, scan: Dir -> Lists)
    ensures Collected(index, call, scan).changed
       <==> call.current.Some?
            && (call.force || index.None? || exists d :: d in call.current.value && d !in index.value.scanned)
    ensures !Collected(index, call, scan).changed ==> Collected(index, call, scan).index == index
    ensures Collected(index, call, scan).changed
            ==> Collected(index, call, scan).index == Some(Saved(Collected(index, call, scan).lists, call.current.value))
  {
    if call.current.Some? && index.Some? { NobodyThere(New(index.value, call.current.value)); }
  }
}
