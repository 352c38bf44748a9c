/**
 Model loads against generations in the speech daemon: any number of worker threads step through
 `_GenerationGuard` and `_ensure_thread_model`. A step is what a thread does between two points where
 another may run; `_GEN_COND` protects each block that reads or writes the shared variables.
 */
module ModelLoad {
  import opened Counting

  /**
   Where a thread stands. Out: in neither. WantGen, GenAsleep, Generating: at the guard's test, waiting
   there, inside. WantLoad: before `_LOAD_ACTIVE` is set. Draining, LoadAsleep: at the test for running
   generations, waiting there. AtMutex, Loading: before and inside `_LOAD_MUTEX`. Clearing: in `finally`.
   */
  datatype Pc =
    | Out
    | WantGen | GenAsleep | Generating
    | WantLoad | Draining | LoadAsleep | AtMutex | Loading | Clearing

  /** `gens` is `_GENS_ACTIVE`, `flag` is `_LOAD_ACTIVE`, `locked` says that `_LOAD_MUTEX` is held. */
  datatype State = State(pcs: seq<Pc>, gens: int, flag: bool, locked: bool)

  /** AskGen and AskLoad bring a thread in; Go is the thread's next step inside. */
  datatype Action = AskGen(t: nat) | AskLoad(t: nat) | Go(t: nat)

  function Start(n: nat): State {
    State(seq(n, i => Out), 0, false, false)
  }

  function Woken(pc: Pc): Pc {
    match pc
    case GenAsleep => WantGen
    case LoadAsleep => Draining
    case other => other
  }

  /** `_GEN_COND.notify_all()`. */
  function NotifyAll(pcs: seq<Pc>): (r: seq<Pc>)
    ensures |r| == |pcs| && forall t :: 0 <= t < |pcs| ==> r[t] == Woken(pcs[t])
  {
    if pcs == [] then [] else NotifyAll(pcs[..|pcs| - 1]) + [Woken(pcs[|pcs| - 1])]
  }

  /** A thread can go on: it is inside, not asleep, and not waiting for a held mutex. */
  predicate CanGo(s: State, t: nat) {
    t < |s.pcs| && s.pcs[t] != Out && s.pcs[t] != GenAsleep && s.pcs[t] != LoadAsleep
    && (s.pcs[t] == AtMutex ==> !s.locked)
  }

  function Next(s: State, t: nat): State
    requires CanGo(s, t)
  {
    match s.pcs[t]
    case WantGen =>
      if s.flag then s.(pcs := s.pcs[t := GenAsleep])
      else s.(pcs := s.pcs[t := Generating], gens := s.gens + 1)
    case Generating => s.(pcs := NotifyAll(s.pcs[t := Out]), gens := s.gens - 1)
    case WantLoad => s.(pcs := NotifyAll(s.pcs[t := Draining]), flag := true)
    case Draining => s.(pcs := s.pcs[t := if s.gens == 0 then AtMutex else LoadAsleep])
    case AtMutex => s.(pcs := s.pcs[t := Loading], locked := true)
    case Loading => s.(pcs := s.pcs[t := Clearing], locked := false)
    case Clearing => s.(pcs := NotifyAll(s.pcs[t := Out]), flag := false)
  }

  function Step(s: State, a: Action): State {
    match a
    case AskGen(t) => if t < |s.pcs| && s.pcs[t] == Out then s.(pcs := s.pcs[t := WantGen]) else s
    case AskLoad(t) => if t < |s.pcs| && s.pcs[t] == Out then s.(pcs := s.pcs[t := WantLoad]) else s
    case Go(t) => if CanGo(s, t) then Next(s, t) else s
  }

  function Run(s: State, acts: seq<Action>): State
    decreases |acts|
  {
    if acts == [] then s else Run(Step(s, acts[0]), acts[1..])
  }

  // ----- Counting threads -----

  lemma WakingKeepsSum(pcs: seq<Pc>, weight: Pc -> nat)
    requires weight(WantGen) == weight(GenAsleep) && weight(Draining) == weight(LoadAsleep)
    ensures Sum(NotifyAll(pcs), weight) == Sum(pcs, weight)
  {
    SumMapped(NotifyAll(pcs), pcs, weight);
  }

  function IsGen(pc: Pc): nat { if pc == Generating then 1 else 0 }

  function IsLoading(pc: Pc): nat { if pc == Loading then 1 else 0 }

  /** Between setting the flag and clearing it. */
  function InSection(pc: Pc): nat {
    if pc == Draining || pc == LoadAsleep || pc == AtMutex || pc == Loading || pc == Clearing then 1 else 0
  }

  function Number(b: bool): nat { if b then 1 else 0 }

  // ----- What holds for any number of threads -----

  /** `_GENS_ACTIVE` counts the generating threads, and `_LOAD_MUTEX` is held by the one loading thread. */
  ghost predicate Counted(s: State) {
    && s.gens == Sum(s.pcs, IsGen)
    && Number(s.locked) == Sum(s.pcs, IsLoading)
    && (s.flag ==> Sum(s.pcs, InSection) > 0)
  }

  /** Nobody sleeps without a reason that will wake it when it ends. */
  predicate SleepsRightly(s: State, pc: Pc) {
    (pc == GenAsleep ==> s.flag) && (pc == LoadAsleep ==> s.gens > 0)
  }

  ghost predicate SleepersAreSafe(s: State) {
    forall t :: 0 <= t < |s.pcs| ==> SleepsRightly(s, s.pcs[t])
  }

  ghost predicate Inv(s: State) {
    Counted(s) && SleepersAreSafe(s)
  }

  lemma StartInv(n: nat)
    ensures Inv(Start(n))
  {
    SumZero(Start(n).pcs, IsGen);
    SumZero(Start(n).pcs, IsLoading);
    SumZero(Start(n).pcs, InSection);
  }

  /** The program counter that `Next` gives thread `t`, before anyone is woken. */
  function Moved(s: State, t: nat): Pc
    requires CanGo(s, t)
  {
    match s.pcs[t]
    case WantGen => if s.flag then GenAsleep else Generating
    case Generating => Out
    case WantLoad => Draining
    case Draining => if s.gens == 0 then AtMutex else LoadAsleep
    case AtMutex => Loading
    case Loading => Clearing
    case Clearing => Out
  }

  lemma GoCounts(s: State, t: nat, weight: Pc -> nat)
    requires CanGo(s, t) && weight(WantGen) == weight(GenAsleep) && weight(Draining) == weight(LoadAsleep)
    ensures Sum(Next(s, t).pcs, weight) == Sum(s.pcs, weight) - weight(s.pcs[t]) + weight(Moved(s, t))
  {
    SumUpdate(s.pcs, weight, t, Moved(s, t));
    WakingKeepsSum(s.pcs[t := Moved(s, t)], weight);
  }

  /** The counters change by what the thread's own share changes. */
  lemma GoCounters(s: State, t: nat)
    requires CanGo(s, t) && (s.pcs[t] == Loading ==> s.locked)
    ensures Next(s, t).gens == s.gens - IsGen(s.pcs[t]) + IsGen(Moved(s, t))
    ensures Number(Next(s, t).locked) == Number(s.locked) - IsLoading(s.pcs[t]) + IsLoading(Moved(s, t))
    ensures Next(s, t).flag ==> InSection(Moved(s, t)) > 0 || (s.flag && InSection(s.pcs[t]) == 0)
  {
  }

  lemma GoCountsGens(s: State, t: nat)
    requires CanGo(s, t) && (s.pcs[t] == Loading ==> s.locked) && s.gens == Sum(s.pcs, IsGen)
    ensures Next(s, t).gens == Sum(Next(s, t).pcs, IsGen)
  {
    GoCounters(s, t);
    GoCounts(s, t, IsGen);
  }

  lemma GoCountsLock(s: State, t: nat)
    requires CanGo(s, t) && (s.pcs[t] == Loading ==> s.locked) && Number(s.locked) == Sum(s.pcs, IsLoading)
    ensures Number(Next(s, t).locked) == Sum(Next(s, t).pcs, IsLoading)
  {
    GoCounters(s, t);
    GoCounts(s, t, IsLoading);
  }

  lemma GoCountsFlag(s: State, t: nat)
    requires CanGo(s, t) && (s.pcs[t] == Loading ==> s.locked) && (s.flag ==> Sum(s.pcs, InSection) > 0)
    ensures Next(s, t).flag ==> Sum(Next(s, t).pcs, InSection) > 0
  {
    GoCounters(s, t);
    GoCounts(s, t, InSection);
    SumUpdate(s.pcs, InSection, t, s.pcs[t]);
  }

  lemma GoKeepsCounted(s: State, t: nat)
    requires Counted(s) && CanGo(s, t)
    ensures Counted(Next(s, t))
  {
    SumUpdate(s.pcs, IsLoading, t, Out);
    GoCountsGens(s, t);
    GoCountsLock(s, t);
    GoCountsFlag(s, t);
  }

  lemma GoKeepsSleepers(s: State, t: nat)
    requires Inv(s) && CanGo(s, t)
    ensures SleepersAreSafe(Next(s, t))
  {
    var r := Next(s, t);
    SumUpdate(s.pcs, IsGen, t, Out);
    forall u | 0 <= u < |r.pcs|
      ensures SleepsRightly(r, r.pcs[u])
    {
      assert SleepsRightly(s, s.pcs[u]);
    }
  }

  lemma GoKeepsInv(s: State, t: nat)
    requires Inv(s) && CanGo(s, t)
    ensures Inv(Next(s, t))
  {
    GoKeepsCounted(s, t);
    GoKeepsSleepers(s, t);
  }

  lemma AskKeepsInv(s: State, t: nat, pc: Pc)
    requires Inv(s) && t < |s.pcs| && s.pcs[t] == Out && (pc == WantGen || pc == WantLoad)
    ensures Inv(s.(pcs := s.pcs[t := pc]))
  {
    SumUpdate(s.pcs, IsGen, t, pc);
    SumUpdate(s.pcs, IsLoading, t, pc);
    SumUpdate(s.pcs, InSection, t, pc);
  }

  lemma StepKeepsInv(s: State, a: Action)
    requires Inv(s)
    ensures Inv(Step(s, a)) && |Step(s, a).pcs| == |s.pcs|
  {
    match a
    case AskGen(t) => if t < |s.pcs| && s.pcs[t] == Out { AskKeepsInv(s, t, WantGen); }
    case AskLoad(t) => if t < |s.pcs| && s.pcs[t] == Out { AskKeepsInv(s, t, WantLoad); }
    case Go(t) => if CanGo(s, t) { GoKeepsInv(s, t); }
  }

  lemma {:induction false} RunKeepsInv(s: State, acts: seq<Action>)
    requires Inv(s)
    ensures Inv(Run(s, acts)) && |Run(s, acts).pcs| == |s.pcs|
    decreases |acts|
  {
    if acts != [] {
      StepKeepsInv(s, acts[0]);
      RunKeepsInv(Step(s, acts[0]), acts[1..]);
    }
  }

  /** Loads never overlap each other, for any number of threads. */
  lemma LoadsNeverOverlap(n: nat, acts: seq<Action>, t: nat, u: nat)
    requires t < u < n
    ensures var s := Run(Start(n), acts);
            |s.pcs| == n && !(s.pcs[t] == Loading && s.pcs[u] == Loading)
  {
    StartInv(n);
    RunKeepsInv(Start(n), acts);
    SumTwo(Run(Start(n), acts).pcs, IsLoading, t, u);
  }

  // ----- Nobody is stuck -----

  ghost predicate AllOut(s: State) {
    forall t :: 0 <= t < |s.pcs| ==> s.pcs[t] == Out
  }

  /** A reachable state in which some thread is inside has a thread that can go on. */
  lemma SomeoneCanGo(s: State) returns (u: nat)
    requires Inv(s) && !AllOut(s)
    ensures CanGo(s, u)
  {
    var t :| 0 <= t < |s.pcs| && s.pcs[t] != Out;
    if CanGo(s, t) {
      u := t;
    } else if s.gens > 0 {
      u := SumWitness(s.pcs, IsGen);
    } else if s.locked {
      u := SumWitness(s.pcs, IsLoading);
    } else {
      assert s.pcs[t] == GenAsleep;
      u := SumWitness(s.pcs, InSection);
    }
  }

  /** How many times a thread will still notify the others. */
  function Notifies(pc: Pc): nat {
    match pc
    case Out => 0
    case WantLoad => 2
    case _ => 1
  }

  /** How many steps a thread can make before it notifies or sleeps. */
  function Moves(pc: Pc): nat {
    match pc
    case WantGen => 1
    case Draining => 4
    case AtMutex => 3
    case Loading => 2
    case Clearing => 1
    case _ => 0
  }

  /** `count` times `4 * n + 1`. */
  function Scaled(count: nat, n: nat): nat {
    if count == 0 then 0 else Scaled(count - 1, n) + (4 * n + 1)
  }

  /** Bounds the steps that the threads inside can make. */
  function Rank(s: State): nat {
    Scaled(Sum(s.pcs, Notifies), |s.pcs|) + Sum(s.pcs, Moves)
  }

  lemma MovesAreBounded(pcs: seq<Pc>)
    ensures Sum(pcs, Moves) <= 4 * |pcs|
  {
    SumBounded(pcs, Moves, 4);
  }

  lemma OneNotifyLess(s: State, t: State)
    requires |t.pcs| == |s.pcs| && Sum(t.pcs, Notifies) + 1 == Sum(s.pcs, Notifies)
    ensures Rank(t) < Rank(s)
  {
    MovesAreBounded(t.pcs);
  }

  lemma NotifyLowersRank(s: State, t: nat)
    requires t < |s.pcs| && (s.pcs[t] == Generating || s.pcs[t] == WantLoad || s.pcs[t] == Clearing)
    ensures var pc := if s.pcs[t] == WantLoad then Draining else Out;
            Rank(s.(pcs := NotifyAll(s.pcs[t := pc]))) < Rank(s)
  {
    var pc := if s.pcs[t] == WantLoad then Draining else Out;
    var pcs := s.pcs[t := pc];
    SumUpdate(s.pcs, Notifies, t, pc);
    WakingKeepsSum(pcs, Notifies);
    OneNotifyLess(s, s.(pcs := NotifyAll(pcs)));
  }

  lemma QuietLowersRank(s: State, t: nat, pc: Pc)
    requires t < |s.pcs| && Notifies(pc) == Notifies(s.pcs[t]) && Moves(pc) < Moves(s.pcs[t])
    ensures Rank(s.(pcs := s.pcs[t := pc])) < Rank(s)
  {
    SumUpdate(s.pcs, Notifies, t, pc);
    SumUpdate(s.pcs, Moves, t, pc);
  }

  lemma GoLowersRank(s: State, t: nat)
    requires CanGo(s, t)
    ensures |Next(s, t).pcs| == |s.pcs| && Rank(Next(s, t)) < Rank(s)
  {
    if s.pcs[t] == Generating || s.pcs[t] == WantLoad || s.pcs[t] == Clearing {
      NotifyLowersRank(s, t);
    } else {
      QuietLowersRank(s, t, Moved(s, t));
    }
  }

  /** Each thread in turn can go on. */
  predicate AllCanGo(s: State, ts: seq<nat>)
    decreases |ts|
  {
    ts == [] || (CanGo(s, ts[0]) && AllCanGo(Next(s, ts[0]), ts[1..]))
  }

  function Goes(ts: seq<nat>): (acts: seq<Action>)
    ensures |acts| == |ts|
  {
    if ts == [] then [] else [Go(ts[0])] + Goes(ts[1..])
  }

  lemma {:induction false} GoingIsBounded(s: State, ts: seq<nat>)
    requires AllCanGo(s, ts)
    ensures |ts| + Rank(Run(s, Goes(ts))) <= Rank(s)
    decreases |ts|
  {
    if ts != [] {
      GoLowersRank(s, ts[0]);
      assert Goes(ts)[1..] == Goes(ts[1..]);
      GoingIsBounded(Next(s, ts[0]), ts[1..]);
    }
  }

  /**
   No deadlock and no lost wake-up, for any number of threads and after any run: once no thread asks any
   more, whatever thread goes on next, all threads are out after at most `Rank` steps. So a schedule that
   goes on as long as some thread can never ends before everyone is out.
   */
  lemma EveryoneGetsOut(n: nat, acts: seq<Action>, ts: seq<nat>)
    requires AllCanGo(Run(Start(n), acts), ts)
    ensures |ts| <= Rank(Run(Start(n), acts))
    ensures var s := Run(Run(Start(n), acts), Goes(ts));
            AllOut(s) <==> forall u :: !CanGo(s, u)
  {
    var r := Run(Start(n), acts);
    StartInv(n);
    RunKeepsInv(Start(n), acts);
    GoingIsBounded(r, ts);
    RunKeepsInv(r, Goes(ts));
    var s := Run(r, Goes(ts));
    if !AllOut(s) {
      var u := SomeoneCanGo(s);
    }
  }

  // ----- Exclusion -----

  /** No generation runs while a model is being loaded. */
  ghost predicate Exclusive(s: State) {
    forall t, u :: 0 <= t < |s.pcs| && 0 <= u < |s.pcs| ==> !(s.pcs[t] == Generating && s.pcs[u] == Loading)
  }

  predicate Alone(s: State) {
    Sum(s.pcs, InSection) <= 1
  }

  /** At most one thread is in the load section in every state of the run. */
  predicate AlwaysAlone(s: State, acts: seq<Action>)
    decreases |acts|
  {
    Alone(s) && (acts == [] || AlwaysAlone(Step(s, acts[0]), acts[1..]))
  }

  /** The flag covers the section, and a loader past its test has no generation beside it. */
  ghost predicate Covered(s: State) {
    && Counted(s)
    && (Sum(s.pcs, InSection) > 0 ==> s.flag)
    && (forall t :: 0 <= t < |s.pcs| ==> LoadsRightly(s, s.pcs[t]))
  }

  predicate LoadsRightly(s: State, pc: Pc) {
    pc == AtMutex || pc == Loading ==> s.gens == 0
  }

  lemma StepKeepsCovered(s: State, a: Action)
    requires Covered(s) && Alone(s)
    ensures Covered(Step(s, a))
  {
    match a
    case AskGen(t) => if t < |s.pcs| && s.pcs[t] == Out { AskKeepsCovered(s, t, WantGen); }
    case AskLoad(t) => if t < |s.pcs| && s.pcs[t] == Out { AskKeepsCovered(s, t, WantLoad); }
    case Go(t) => if CanGo(s, t) { GoKeepsCovered(s, t); }
  }

  lemma AskKeepsCovered(s: State, t: nat, pc: Pc)
    requires Covered(s) && t < |s.pcs| && s.pcs[t] == Out && (pc == WantGen || pc == WantLoad)
    ensures Covered(s.(pcs := s.pcs[t := pc]))
  {
    SumUpdate(s.pcs, IsGen, t, pc);
    SumUpdate(s.pcs, IsLoading, t, pc);
    SumUpdate(s.pcs, InSection, t, pc);
  }

  lemma GoKeepsCovered(s: State, t: nat)
    requires Covered(s) && Alone(s) && CanGo(s, t)
    ensures Covered(Next(s, t))
  {
    GoKeepsCounted(s, t);
    GoKeepsFlag(s, t);
    var r := Next(s, t);
    forall u | 0 <= u < |r.pcs|
      ensures LoadsRightly(r, r.pcs[u])
    {
      GoKeepsLoader(s, t, u);
    }
  }

  lemma GoKeepsFlag(s: State, t: nat)
    requires Covered(s) && Alone(s) && CanGo(s, t)
    ensures Sum(Next(s, t).pcs, InSection) > 0 ==> Next(s, t).flag
  {
    var pc := Moved(s, t);
    SumUpdate(s.pcs, InSection, t, pc);
    WakingKeepsSum(s.pcs[t := pc], InSection);
    assert Next(s, t).pcs == s.pcs[t := pc] || Next(s, t).pcs == NotifyAll(s.pcs[t := pc]);
  }

  lemma GoKeepsLoader(s: State, t: nat, u: nat)
    requires Covered(s) && CanGo(s, t) && u < |s.pcs|
    ensures |Next(s, t).pcs| == |s.pcs| && LoadsRightly(Next(s, t), Next(s, t).pcs[u])
  {
    assert LoadsRightly(s, s.pcs[u]);
    SumUpdate(s.pcs, InSection, u, Out);
    SumUpdate(s.pcs, IsGen, t, Out);
  }

  lemma CoveredExcludes(s: State)
    requires Covered(s)
    ensures Exclusive(s)
  {
    forall t, u | 0 <= t < |s.pcs| && 0 <= u < |s.pcs|
      ensures !(s.pcs[t] == Generating && s.pcs[u] == Loading)
    {
      assert LoadsRightly(s, s.pcs[u]);
      SumUpdate(s.pcs, IsGen, t, Out);
    }
  }

  lemma {:induction false} RunKeepsCovered(s: State, acts: seq<Action>)
    requires Covered(s) && AlwaysAlone(s, acts)
    ensures Covered(Run(s, acts))
    decreases |acts|
  {
    if acts != [] {
      StepKeepsCovered(s, acts[0]);
      RunKeepsCovered(Step(s, acts[0]), acts[1..]);
    }
  }

  /** For any number of threads: while at most one is in the load section, loads exclude generations. */
  lemma ExclusionIfAlone(n: nat, acts: seq<Action>)
    requires AlwaysAlone(Start(n), acts)
    ensures Exclusive(Run(Start(n), acts))
  {
    StartInv(n);
    SumZero(Start(n).pcs, InSection);
    RunKeepsCovered(Start(n), acts);
    CoveredExcludes(Run(Start(n), acts));
  }

  /** Two threads come for a load and both find no generation. */
  const BOTH_PASS: seq<Action> := [AskLoad(0), AskLoad(1), Go(0), Go(1), Go(0), Go(1)]

  /** The first loads, leaves and clears the one flag they share. */
  const FIRST_LEAVES: seq<Action> := [Go(0), Go(0), Go(0)]

  /** The first generates, and then the second takes the mutex. */
  const MEETING: seq<Action> := [AskGen(0), Go(0), Go(1)]

  ghost predicate AlwaysExclusive(n: nat) {
    forall acts: seq<Action> :: Exclusive(Run(Start(n), acts))
  }

  lemma {:induction false} FewAreAlone(s: State, acts: seq<Action>)
    requires |s.pcs| <= 1 && Inv(s)
    ensures AlwaysAlone(s, acts)
    decreases |acts|
  {
    assert s.pcs != [] ==> s.pcs[..0] == [];
    if acts != [] {
      StepKeepsInv(s, acts[0]);
      FewAreAlone(Step(s, acts[0]), acts[1..]);
    }
  }

  /** The same state with more threads, none of which ever comes in. */
  function Padded(s: State, outs: seq<Pc>): State {
    s.(pcs := s.pcs + outs)
  }

  lemma NotifyPadded(pcs: seq<Pc>, outs: seq<Pc>)
    requires forall i :: 0 <= i < |outs| ==> outs[i] == Out
    ensures NotifyAll(pcs + outs) == NotifyAll(pcs) + outs
  {
    var all := NotifyAll(pcs + outs);
    forall i | 0 <= i < |all|
      ensures all[i] == (NotifyAll(pcs) + outs)[i]
    {
      assert all[i] == Woken((pcs + outs)[i]);
    }
  }

  lemma UpdateAppended(pcs: seq<Pc>, outs: seq<Pc>, t: nat, pc: Pc)
    requires t < |pcs|
    ensures (pcs + outs)[t := pc] == pcs[t := pc] + outs
  {
  }

  lemma UpdatePadded(pcs: seq<Pc>, outs: seq<Pc>, t: nat, pc: Pc)
    requires t < |pcs| && forall i :: 0 <= i < |outs| ==> outs[i] == Out
    ensures (pcs + outs)[t := pc] == pcs[t := pc] + outs
    ensures NotifyAll(pcs[t := pc] + outs) == NotifyAll(pcs[t := pc]) + outs
  {
    UpdateAppended(pcs, outs, t, pc);
    NotifyPadded(pcs[t := pc], outs);
  }

  lemma NextPadded(s: State, outs: seq<Pc>, t: nat)
    requires CanGo(s, t) && forall i :: 0 <= i < |outs| ==> outs[i] == Out
    ensures CanGo(Padded(s, outs), t) && Next(Padded(s, outs), t) == Padded(Next(s, t), outs)
  {
    UpdatePadded(s.pcs, outs, t, Moved(s, t));
    assert Padded(s, outs).pcs[t] == s.pcs[t];
    match s.pcs[t]
    case WantGen =>
    case Generating =>
    case WantLoad =>
    case Draining =>
    case AtMutex =>
    case Loading =>
    case Clearing =>
  }

  lemma StepPadded(s: State, outs: seq<Pc>, a: Action)
    requires a.t < |s.pcs| && forall i :: 0 <= i < |outs| ==> outs[i] == Out
    ensures Step(Padded(s, outs), a) == Padded(Step(s, a), outs)
  {
    assert Padded(s, outs).pcs[a.t] == s.pcs[a.t];
    match a
    case AskGen(t) => UpdatePadded(s.pcs, outs, t, WantGen);
    case AskLoad(t) => UpdatePadded(s.pcs, outs, t, WantLoad);
    case Go(t) =>
      if CanGo(s, t) { NextPadded(s, outs, t); }
  }

  lemma {:induction false} RunPadded(s: State, outs: seq<Pc>, acts: seq<Action>)
    requires forall a :: a in acts ==> a.t < |s.pcs|
    requires forall i :: 0 <= i < |outs| ==> outs[i] == Out
    ensures Run(Padded(s, outs), acts) == Padded(Run(s, acts), outs)
    decreases |acts|
  {
    if acts != [] {
      assert acts[0] in acts;
      StepPadded(s, outs, acts[0]);
      assert |Step(s, acts[0]).pcs| == |s.pcs|;
      RunPadded(Step(s, acts[0]), outs, acts[1..]);
    }
  }

  lemma RunHead(s: State, a: Action, rest: seq<Action>)
    ensures Run(s, [a] + rest) == Run(Step(s, a), rest)
  {
    assert ([a] + rest)[1..] == rest;
  }

  lemma RunThree(s: State, a: Action, s1: State, b: Action, s2: State, c: Action, rest: seq<Action>)
    requires s1 == Step(s, a) && s2 == Step(s1, b)
    ensures Run(s, [a, b, c] + rest) == Run(Step(s2, c), rest)
  {
    RunHead(s, a, [b] + ([c] + rest));
    RunHead(s1, b, [c] + rest);
    RunHead(s2, c, rest);
    assert [a, b, c] + rest == [a] + ([b] + ([c] + rest));
  }

  lemma BothCome(rest: seq<Action>)
    ensures Run(Start(2), [AskLoad(0), AskLoad(1), Go(0)] + rest)
            == Run(State([Draining, WantLoad], 0, true, false), rest)
  {
    var s1 := State([WantLoad, Out], 0, false, false);
    assert s1 == Step(Start(2), AskLoad(0));
    var s2 := State([WantLoad, WantLoad], 0, false, false);
    assert s2 == Step(s1, AskLoad(1));
    assert Step(s2, Go(0)) == State([Draining, WantLoad], 0, true, false);
    RunThree(Start(2), AskLoad(0), s1, AskLoad(1), s2, Go(0), rest);
  }

  lemma BothPass(rest: seq<Action>)
    ensures Run(State([Draining, WantLoad], 0, true, false), [Go(1), Go(0), Go(1)] + rest)
            == Run(State([AtMutex, AtMutex], 0, true, false), rest)
  {
    var s0 := State([Draining, WantLoad], 0, true, false);
    var s1 := State([Draining, Draining], 0, true, false);
    assert s1 == Step(s0, Go(1));
    var s2 := State([AtMutex, Draining], 0, true, false);
    assert s2 == Step(s1, Go(0));
    assert Step(s2, Go(1)) == State([AtMutex, AtMutex], 0, true, false);
    RunThree(s0, Go(1), s1, Go(0), s2, Go(1), rest);
  }

  lemma FirstLeaves(rest: seq<Action>)
    ensures Run(State([AtMutex, AtMutex], 0, true, false), [Go(0), Go(0), Go(0)] + rest)
            == Run(State([Out, AtMutex], 0, false, false), rest)
  {
    var s0 := State([AtMutex, AtMutex], 0, true, false);
    var s1 := State([Loading, AtMutex], 0, true, true);
    assert s1 == Step(s0, Go(0));
    var s2 := State([Clearing, AtMutex], 0, true, false);
    assert s2 == Step(s1, Go(0));
    assert Step(s2, Go(0)) == State([Out, AtMutex], 0, false, false);
    RunThree(s0, Go(0), s1, Go(0), s2, Go(0), rest);
  }

  lemma TheyMeet()
    ensures Run(State([Out, AtMutex], 0, false, false), MEETING + [])
            == State([Generating, Loading], 1, false, true)
  {
    var s0 := State([Out, AtMutex], 0, false, false);
    var s1 := State([WantGen, AtMutex], 0, false, false);
    assert s1 == Step(s0, AskGen(0));
    var s2 := State([Generating, AtMutex], 1, false, false);
    assert s2 == Step(s1, Go(0));
    assert Step(s2, Go(1)) == State([Generating, Loading], 1, false, true);
    RunThree(s0, AskGen(0), s1, Go(0), s2, Go(1), []);
  }

  /** `_LOAD_ACTIVE` holds one bit: the first of two loaders to finish takes it away from the second. */
  lemma TwoLoadersBreach()
    ensures Run(Start(2), BOTH_PASS + FIRST_LEAVES + MEETING) == State([Generating, Loading], 1, false, true)
  {
    BothCome([Go(1), Go(0), Go(1)] + (FIRST_LEAVES + MEETING));
    BothPass(FIRST_LEAVES + MEETING);
    FirstLeaves(MEETING);
    TheyMeet();
    assert MEETING + [] == MEETING;
    assert BOTH_PASS + FIRST_LEAVES + MEETING
        == [AskLoad(0), AskLoad(1), Go(0)] + ([Go(1), Go(0), Go(1)] + (FIRST_LEAVES + MEETING));
  }

  lemma ManyBreach(n: nat) returns (acts: seq<Action>)
    requires n >= 2
    ensures !Exclusive(Run(Start(n), acts))
  {
    acts := BOTH_PASS + FIRST_LEAVES + MEETING;
    TwoLoadersBreach();
    var outs := Start(n - 2).pcs;
    RunPadded(Start(2), outs, acts);
    assert Padded(Start(2), outs) == Start(n);
    var pcs := [Generating, Loading] + outs;
    assert pcs[0] == Generating && pcs[1] == Loading;
  }

  /**
   The exclusion that the comments promise holds over every run exactly when the daemon has one worker;
   with two or more, two overlapping loads are enough to break it.
   */
  lemma ExclusionIff(n: nat)
    ensures AlwaysExclusive(n) <==> n <= 1
  {
    if n <= 1 {
      forall acts: seq<Action>
        ensures Exclusive(Run(Start(n), acts))
      {
        StartInv(n);
        FewAreAlone(Start(n), acts);
        ExclusionIfAlone(n, acts);
      }
    } else {
      var acts := ManyBreach(n);
    }
  }

  // ----- Generations are not kept apart -----

  /** Every thread asks, and then every thread goes on. */
  function AllAsk(n: nat): seq<Action> {
    if n == 0 then [] else AllAsk(n - 1) + [AskGen(n - 1)]
  }

  function AllGo(n: nat): seq<Action> {
    if n == 0 then [] else AllGo(n - 1) + [Go(n - 1)]
  }

  lemma {:induction false} RunLast(s: State, acts: seq<Action>, a: Action)
    ensures Run(s, acts + [a]) == Step(Run(s, acts), a)
    decreases |acts|
  {
    if acts == [] {
      assert [] + [a] == [a] && [a][1..] == [];
    } else {
      assert (acts + [a])[1..] == acts[1..] + [a];
      RunLast(Step(s, acts[0]), acts[1..], a);
    }
  }

  lemma {:induction false} AskingRun(n: nat, k: nat)
    requires k <= n
    ensures var s := Run(Start(n), AllAsk(k));
            |s.pcs| == n && !s.flag
            && forall t :: 0 <= t < n ==> s.pcs[t] == if t < k then WantGen else Out
  {
    if k > 0 {
      AskingRun(n, k - 1);
      RunLast(Start(n), AllAsk(k - 1), AskGen(k - 1));
    }
  }

  lemma {:induction false} GoingRun(s: State, k: nat)
    requires k <= |s.pcs| && !s.flag && forall t :: 0 <= t < |s.pcs| ==> s.pcs[t] == WantGen
    ensures var r := Run(s, AllGo(k));
            |r.pcs| == |s.pcs| && !r.flag
            && forall t :: 0 <= t < |s.pcs| ==> r.pcs[t] == if t < k then Generating else WantGen
  {
    if k > 0 {
      GoingRun(s, k - 1);
      RunLast(s, AllGo(k - 1), Go(k - 1));
    }
  }

  /** Any number of threads can generate at the same time. */
  lemma AllCanGenerate(n: nat)
    ensures var s := Run(Run(Start(n), AllAsk(n)), AllGo(n));
            |s.pcs| == n && forall t :: 0 <= t < n ==> s.pcs[t] == Generating
  {
    AskingRun(n, n);
    GoingRun(Run(Start(n), AllAsk(n)), n);
  }
}
