/**
 Slot admission in the warm daemons: any number of connections are dispatched to the NPU worker or to
 the GPU workers, run, are answered and give their slot back, interleaved statement by statement in any
 order. The translate daemon has both pools; the speech daemon is the case without an NPU slot.
 */
module Slots {
  import opened Counting
  import opened Text

  datatype Pool = Npu | Gpu

  datatype Command = Translate | Tts | EnsureModel

  /**
   The statements of a job: `_ACTIVE` is raised; the hang guard is armed, for a GPU job; some code that may
   raise; the wait while the thermal gate is closed, which raises when the daemon quits; the attempt of the
   NPU engine, which answers and returns unless the engine is unavailable; and the answer that ends the `try`.
   */
  datatype Statement = Raise | Arm | Call | Gate | NpuAnswer | Answer

  /** The body of a job up to the end of its `try`. */
  function Program(cmd: Command, pool: Pool): seq<Statement> {
    match (cmd, pool)
    case (Translate, _) => [Raise, Arm, Call, Gate, Call, Answer]
    case (Tts, _) => [Arm, Raise, Call, Gate, Call, Answer]
    case (EnsureModel, Npu) => [Raise, Arm, Call, NpuAnswer, Call, Answer]
    case (EnsureModel, Gpu) => [Raise, Arm, Call, Answer]
  }

  /** The statements of its `finally`. */
  datatype Cleaning = Lower | Disarm | Release

  /** How a statement goes. */
  datatype Outcome = Fine | Unavailable | Raises | Waits

  /**
   Waiting: before dispatch. Admitted: slot acquired, before the submit to the pool. Refused: the submit
   failed and the slot is back, before the answer. Body: submitted, about to run a statement. Handling: in
   the `except`, before its answer. Cleanup: about to run a statement of the `finally`. Closed: the end.
   */
  datatype Phase =
    | Waiting
    | Admitted(pool: Pool)
    | Refused
    | Body(pool: Pool, pc: nat)
    | Handling(pool: Pool)
    | Cleanup(pool: Pool, next: Cleaning)
    | Closed

  /** A request, with how often its slot was acquired and released and how often it was answered. */
  datatype Request = Request(cmd: Command, phase: Phase, acquired: nat, released: nat, answers: nat, busy: bool)

  /** `None` for a pool means that the daemon has no such slot. */
  datatype Capacity = Capacity(npu: Option<nat>, gpu: Option<nat>)

  /** The free slots of each pool, `_ACTIVE`, and the jobs that the hang guard watches. */
  datatype State = State(requests: seq<Request>, npuFree: nat, gpuFree: nat, active: int, watched: int)

  datatype Action =
    | Arrive(cmd: Command)
    | Go(i: nat, outcome: Outcome)

  function Fresh(capacity: Capacity): State {
    State([], Size(capacity, Npu), Size(capacity, Gpu), 0, 0)
  }

  function Size(capacity: Capacity, pool: Pool): nat {
    match if pool == Npu then capacity.npu else capacity.gpu
    case Some(n) => n
    case None => 0
  }

  function Free(s: State, pool: Pool): nat {
    if pool == Npu then s.npuFree else s.gpuFree
  }

  function Taken(s: State, pool: Pool): State
    requires Free(s, pool) > 0
  {
    if pool == Npu then s.(npuFree := s.npuFree - 1) else s.(gpuFree := s.gpuFree - 1)
  }

  /** `_release_slot`. */
  function Given(s: State, pool: Pool): State {
    if pool == Npu then s.(npuFree := s.npuFree + 1) else s.(gpuFree := s.gpuFree + 1)
  }

  /** The routing of `_dispatch`: the pool that admits the request, if any. */
  function Route(capacity: Capacity, s: State, cmd: Command): (r: Option<Pool>)
    ensures r.Some? ==> Free(s, r.value) > 0
  {
    if capacity.npu.Some? && s.npuFree > 0 then Some(Npu)
    else if (cmd != EnsureModel || capacity.npu.None?) && capacity.gpu.Some? && s.gpuFree > 0 then Some(Gpu)
    else None
  }

  // ----- The steps -----

  function Put(s: State, i: nat, r: Request): State
    requires i < |s.requests|
  {
    s.(requests := s.requests[i := r])
  }

  /** `_dispatch` up to the acquired slot, or the busy answer. */
  function Dispatched(capacity: Capacity, s: State, i: nat): State
    requires i < |s.requests|
  {
    var r := s.requests[i];
    match Route(capacity, s, r.cmd)
    case Some(pool) => Put(Taken(s, pool), i, r.(phase := Admitted(pool), acquired := r.acquired + 1))
    case None => Put(s, i, r.(phase := Closed, answers := r.answers + 1, busy := true))
  }

  /** Where a statement of the body leads: on, out of the `try`, to the `except`, or nowhere yet. */
  function AfterStatement(pool: Pool, pc: nat, statement: Statement, outcome: Outcome): Phase {
    match statement
    case Raise => Body(pool, pc + 1)
    case Arm => Body(pool, pc + 1)
    case Call => if outcome == Raises then Handling(pool) else Body(pool, pc + 1)
    case Gate =>
      if outcome == Raises then Handling(pool) else if outcome == Waits then Body(pool, pc) else Body(pool, pc + 1)
    case NpuAnswer =>
      if outcome == Raises then Handling(pool)
      else if outcome == Unavailable then Body(pool, pc + 1) else Cleanup(pool, Lower)
    case Answer => if outcome == Raises then Handling(pool) else Cleanup(pool, Lower)
  }

  /** One statement of a job's body. */
  function InBody(s: State, i: nat, pool: Pool, pc: nat, statement: Statement, outcome: Outcome): State
    requires i < |s.requests|
  {
    var r, phase := s.requests[i], AfterStatement(pool, pc, statement, outcome);
    var answered := statement.NpuAnswer? || statement.Answer?;
    Put(s, i, r.(phase := phase, answers := r.answers + if answered && phase.Cleanup? then 1 else 0))
      .(active := s.active + if statement.Raise? then 1 else 0,
        watched := s.watched + if statement.Arm? && pool == Gpu then 1 else 0)
  }

  /** One statement of its `finally`. */
  function InCleanup(s: State, i: nat, pool: Pool, next: Cleaning): State
    requires i < |s.requests|
  {
    var r := s.requests[i];
    match next
    case Lower => Put(s, i, r.(phase := Cleanup(pool, Disarm))).(active := s.active - 1)
    case Disarm =>
      Put(s, i, r.(phase := Cleanup(pool, Release))).(watched := s.watched - if pool == Gpu then 1 else 0)
    case Release => Put(Given(s, pool), i, r.(phase := Closed, released := r.released + 1))
  }

  /** The next step of request `i`; the executor takes an admitted job unless the submit raises. */
  function Next(capacity: Capacity, s: State, i: nat, outcome: Outcome): State
    requires i < |s.requests|
  {
    var r := s.requests[i];
    match r.phase
    case Waiting => Dispatched(capacity, s, i)
    case Admitted(pool) =>
      if outcome != Raises then Put(s, i, r.(phase := Body(pool, 0)))
      else Put(Given(s, pool), i, r.(phase := Refused, released := r.released + 1))
    case Refused => Put(s, i, r.(phase := Closed, answers := r.answers + 1))
    case Body(pool, pc) =>
      var program := Program(r.cmd, pool);
      if pc < |program| then InBody(s, i, pool, pc, program[pc], outcome) else s
    case Handling(pool) => Put(s, i, r.(phase := Cleanup(pool, Lower), answers := r.answers + 1))
    case Cleanup(pool, next) => InCleanup(s, i, pool, next)
    case Closed => s
  }

  function Step(capacity: Capacity, s: State, a: Action): State {
    match a
    case Arrive(cmd) => s.(requests := s.requests + [Request(cmd, Waiting, 0, 0, 0, false)])
    case Go(i, outcome) => if i < |s.requests| then Next(capacity, s, i, outcome) else s
  }

  function Run(capacity: Capacity, s: State, acts: seq<Action>): State
    decreases |acts|
  {
    if acts == [] then s else Run(capacity, Step(capacity, s, acts[0]), acts[1..])
  }

  // ----- Counting -----

  /** A request that has acquired a slot of the pool and not given it back. */
  predicate Holding(r: Request, pool: Pool) {
    match r.phase
    case Admitted(p) => p == pool
    case Body(p, _) => p == pool
    case Handling(p) => p == pool
    case Cleanup(p, _) => p == pool
    case _ => false
  }

  function HoldsNpu(r: Request): nat { if Holding(r, Npu) then 1 else 0 }

  function HoldsGpu(r: Request): nat { if Holding(r, Gpu) then 1 else 0 }

  function Held(s: State, pool: Pool): nat {
    if pool == Npu then Sum(s.requests, HoldsNpu) else Sum(s.requests, HoldsGpu)
  }

  /** The job's body has run this statement. */
  predicate HasRun(r: Request, statement: Statement) {
    match r.phase
    case Body(pool, pc) => exists k :: 0 <= k < pc && k < |Program(r.cmd, pool)| && Program(r.cmd, pool)[k] == statement
    case Handling(_) => true
    case Cleanup(_, _) => true
    case _ => false
  }

  /** Between raising `_ACTIVE` and lowering it. */
  function Active(r: Request): nat {
    if HasRun(r, Raise) && (r.phase.Cleanup? ==> r.phase.next == Lower) then 1 else 0
  }

  /** On the GPU, between arming the guard and disarming it. */
  function Watched(r: Request): nat {
    if HasRun(r, Arm) && r.phase.pool == Gpu && (r.phase.Cleanup? ==> r.phase.next != Release) then 1 else 0
  }

  /** What the life of one request has left so far. */
  predicate Tidy(capacity: Capacity, r: Request) {
    && r.acquired == (if r.phase == Waiting || r.busy then 0 else 1)
    && r.released == (if r.phase == Refused || (r.phase == Closed && !r.busy) then 1 else 0)
    && r.answers == (if r.phase.Cleanup? || r.phase == Closed then 1 else 0)
    && (r.busy ==> r.phase == Closed)
    && (r.phase.Body? ==> r.phase.pc < |Program(r.cmd, r.phase.pool)|)
    && (r.cmd == EnsureModel && Holding(r, Gpu) ==> capacity.npu.None?)
  }

  ghost predicate AllTidy(capacity: Capacity, s: State) {
    forall i :: 0 <= i < |s.requests| ==> Tidy(capacity, s.requests[i])
  }

  predicate Conserved(capacity: Capacity, s: State) {
    && s.npuFree + Sum(s.requests, HoldsNpu) == Size(capacity, Npu)
    && s.gpuFree + Sum(s.requests, HoldsGpu) == Size(capacity, Gpu)
    && s.active == Sum(s.requests, Active)
    && s.watched == Sum(s.requests, Watched)
  }

  // ----- What one step changes -----

  /** Request `i` becomes `r`, and the counters change by what that changes of its share. */
  predicate Changes(capacity: Capacity, s: State, i: nat, t: State) {
    && i < |s.requests| && |t.requests| == |s.requests| && t.requests == s.requests[i := t.requests[i]]
    && var r, r' := s.requests[i], t.requests[i];
       && t.npuFree + HoldsNpu(r') == s.npuFree + HoldsNpu(r)
       && t.gpuFree + HoldsGpu(r') == s.gpuFree + HoldsGpu(r)
       && t.active - Active(r') == s.active - Active(r)
       && t.watched - Watched(r') == s.watched - Watched(r)
       && Tidy(capacity, r')
  }

  /** Nothing in a body can raise before `_ACTIVE` is raised and the guard is armed; the last statement answers. */
  lemma RaisesLate(cmd: Command, pool: Pool, pc: nat, r: Request)
    requires r.cmd == cmd && r.phase == Body(pool, pc) && pc < |Program(cmd, pool)|
    requires Program(cmd, pool)[pc] != Raise && Program(cmd, pool)[pc] != Arm
    ensures HasRun(r, Raise) && HasRun(r, Arm)
    ensures pc + 1 == |Program(cmd, pool)| <==> Program(cmd, pool)[pc] == Answer
  {
    assert Program(cmd, pool)[0] == Raise || Program(cmd, pool)[0] == Arm;
    assert Program(cmd, pool)[1] == Raise || Program(cmd, pool)[1] == Arm;
  }

  /** `_ACTIVE` is raised and the guard is armed once each, before anything else. */
  lemma CountsOnce(cmd: Command, pool: Pool, pc: nat, r: Request, statement: Statement)
    requires r.cmd == cmd && r.phase == Body(pool, pc) && pc < |Program(cmd, pool)| && (statement == Raise || statement == Arm)
    ensures Program(cmd, pool)[pc] == statement ==> pc + 1 < |Program(cmd, pool)| && !HasRun(r, statement)
    ensures HasRun(r.(phase := Body(pool, pc + 1)), statement)
       <==> HasRun(r, statement) || Program(cmd, pool)[pc] == statement
  {
    if Program(cmd, pool)[pc] == statement {
      assert HasRun(r.(phase := Body(pool, pc + 1)), statement);
    }
  }

  /** Raising `_ACTIVE` and arming the guard. */
  lemma CountingChanges(capacity: Capacity, s: State, i: nat, pool: Pool, pc: nat, outcome: Outcome)
    requires i < |s.requests| && Tidy(capacity, s.requests[i]) && s.requests[i].phase == Body(pool, pc)
    requires var statement := Program(s.requests[i].cmd, pool)[pc]; statement == Raise || statement == Arm
    ensures Changes(capacity, s, i, InBody(s, i, pool, pc, Program(s.requests[i].cmd, pool)[pc], outcome))
  {
    var r := s.requests[i];
    CountsOnce(r.cmd, pool, pc, r, Raise);
    CountsOnce(r.cmd, pool, pc, r, Arm);
  }

  /** The other statements, which may raise or answer. */
  lemma WorkChanges(capacity: Capacity, s: State, i: nat, pool: Pool, pc: nat, statement: Statement, outcome: Outcome)
    requires i < |s.requests| && Tidy(capacity, s.requests[i]) && s.requests[i].phase == Body(pool, pc)
    requires statement == Program(s.requests[i].cmd, pool)[pc] && statement != Raise && statement != Arm
    ensures Changes(capacity, s, i, InBody(s, i, pool, pc, statement, outcome))
  {
    var r := s.requests[i];
    RaisesLate(r.cmd, pool, pc, r);
    if AfterStatement(pool, pc, statement, outcome) == Body(pool, pc + 1) {
      CountsOnce(r.cmd, pool, pc, r, Raise);
      CountsOnce(r.cmd, pool, pc, r, Arm);
    }
  }

  lemma BodyChanges(capacity: Capacity, s: State, i: nat, pool: Pool, pc: nat, outcome: Outcome)
    requires i < |s.requests| && Tidy(capacity, s.requests[i]) && s.requests[i].phase == Body(pool, pc)
    ensures Changes(capacity, s, i, Next(capacity, s, i, outcome))
  {
    var statement := Program(s.requests[i].cmd, pool)[pc];
    if statement == Raise || statement == Arm {
      CountingChanges(capacity, s, i, pool, pc, outcome);
    } else {
      WorkChanges(capacity, s, i, pool, pc, statement, outcome);
    }
  }

  lemma DispatchChanges(capacity: Capacity, s: State, i: nat)
    requires i < |s.requests| && Tidy(capacity, s.requests[i]) && s.requests[i].phase == Waiting
    ensures Changes(capacity, s, i, Dispatched(capacity, s, i))
  {
  }

  lemma CleanupChanges(capacity: Capacity, s: State, i: nat, pool: Pool, next: Cleaning)
    requires i < |s.requests| && Tidy(capacity, s.requests[i]) && s.requests[i].phase == Cleanup(pool, next)
    ensures Changes(capacity, s, i, InCleanup(s, i, pool, next))
  {
    match next
    case Lower =>
    case Disarm =>
    case Release =>
  }

  lemma NextChanges(capacity: Capacity, s: State, i: nat, outcome: Outcome)
    requires i < |s.requests| && Tidy(capacity, s.requests[i])
    ensures Changes(capacity, s, i, Next(capacity, s, i, outcome))
  {
    match s.requests[i].phase
    case Waiting => DispatchChanges(capacity, s, i);
    case Admitted(_) => SubmitChanges(capacity, s, i, outcome);
    case Refused =>
    case Body(pool, pc) => BodyChanges(capacity, s, i, pool, pc, outcome);
    case Handling(_) =>
    case Cleanup(pool, next) => CleanupChanges(capacity, s, i, pool, next);
    case Closed =>
  }

  lemma SubmitChanges(capacity: Capacity, s: State, i: nat, outcome: Outcome)
    requires i < |s.requests| && Tidy(capacity, s.requests[i]) && s.requests[i].phase.Admitted?
    ensures Changes(capacity, s, i, Next(capacity, s, i, outcome))
  {
  }

  // ----- Every run -----

  lemma ChangesConserve(capacity: Capacity, s: State, i: nat, t: State)
    requires Conserved(capacity, s) && Changes(capacity, s, i, t)
    ensures Conserved(capacity, t)
  {
    SumUpdate(s.requests, HoldsNpu, i, t.requests[i]);
    SumUpdate(s.requests, HoldsGpu, i, t.requests[i]);
    SumUpdate(s.requests, Active, i, t.requests[i]);
    SumUpdate(s.requests, Watched, i, t.requests[i]);
  }

  lemma NextKeeps(capacity: Capacity, s: State, i: nat, outcome: Outcome)
    requires Conserved(capacity, s) && AllTidy(capacity, s) && i < |s.requests|
    ensures Conserved(capacity, Next(capacity, s, i, outcome)) && AllTidy(capacity, Next(capacity, s, i, outcome))
  {
    NextChanges(capacity, s, i, outcome);
    ChangesConserve(capacity, s, i, Next(capacity, s, i, outcome));
  }

  lemma ArrivalKeeps(capacity: Capacity, s: State, cmd: Command)
    requires Conserved(capacity, s) && AllTidy(capacity, s)
    ensures Conserved(capacity, Step(capacity, s, Arrive(cmd))) && AllTidy(capacity, Step(capacity, s, Arrive(cmd)))
  {
    var r := Request(cmd, Waiting, 0, 0, 0, false);
    SumAppend(s.requests, HoldsNpu, r);
    SumAppend(s.requests, HoldsGpu, r);
    SumAppend(s.requests, Active, r);
    SumAppend(s.requests, Watched, r);
  }

  lemma {:induction false} RunKeeps(capacity: Capacity, s: State, acts: seq<Action>)
    requires Conserved(capacity, s) && AllTidy(capacity, s)
    ensures Conserved(capacity, Run(capacity, s, acts)) && AllTidy(capacity, Run(capacity, s, acts))
    decreases |acts|
  {
    if acts != [] {
      match acts[0] {
        case Arrive(cmd) => ArrivalKeeps(capacity, s, cmd);
        case Go(i, outcome) => if i < |s.requests| { NextKeeps(capacity, s, i, outcome); }
      }
      RunKeeps(capacity, Step(capacity, s, acts[0]), acts[1..]);
    }
  }

  /**
   After any run: free slots and held slots make up each pool, so no release ever exceeds the bounded
   semaphore; `_ACTIVE` and the hang guard count exactly the jobs, and the GPU jobs, that are in between.
   */
  lemma SlotsConserved(capacity: Capacity, acts: seq<Action>, pool: Pool)
    ensures var s := Run(capacity, Fresh(capacity), acts);
            Free(s, pool) + Held(s, pool) == Size(capacity, pool)
            && s.active == Sum(s.requests, Active) && s.watched == Sum(s.requests, Watched)
  {
    RunKeeps(capacity, Fresh(capacity), acts);
  }

  /**
   Wherever the body raises, whether the NPU answers or falls back to the GPU model, and whether the submit
   works: every request is answered once and its slot released exactly as often as it was acquired; an
   ensure_model holds no GPU slot in a daemon with an NPU slot.
   */
  lemma AnsweredAndReleasedOnce(capacity: Capacity, acts: seq<Action>, i: nat)
    requires i < |Run(capacity, Fresh(capacity), acts).requests|
    ensures var r := Run(capacity, Fresh(capacity), acts).requests[i];
            r.released <= r.acquired <= 1 && r.answers <= 1
            && (r.phase == Closed ==> r.answers == 1 && r.released == r.acquired)
            && (r.released < r.acquired <==> Holding(r, Npu) || Holding(r, Gpu))
            && (r.phase.Body? || r.phase.Handling? ==> r.answers == 0)
            && (r.cmd == EnsureModel && capacity.npu.Some? ==> !Holding(r, Gpu))
  {
    RunKeeps(capacity, Fresh(capacity), acts);
    assert Tidy(capacity, Run(capacity, Fresh(capacity), acts).requests[i]);
  }

  // ----- Routing -----

  /** Every slot of the pool is held by some request, or the daemon has none. */
  ghost predicate Exhausted(capacity: Capacity, s: State, pool: Pool) {
    Held(s, pool) == Size(capacity, pool)
  }

  /**
   NPU first: a dispatched request gets the NPU slot whenever one is free; it gets a GPU slot exactly when
   all NPU slots are held, a GPU slot is free, and it is no ensure_model or there is no NPU slot at all; and
   it is told busy exactly in the remaining cases.
   */
  lemma RoutingIff(capacity: Capacity, acts: seq<Action>, i: nat, outcome: Outcome)
    requires i < |Run(capacity, Fresh(capacity), acts).requests|
    requires Run(capacity, Fresh(capacity), acts).requests[i].phase == Waiting
    ensures var s := Run(capacity, Fresh(capacity), acts);
            var r := s.requests[i];
            var t := Next(capacity, s, i, outcome).requests[i];
            && (t.phase == Admitted(Npu) <==> !Exhausted(capacity, s, Npu))
            && (t.phase == Admitted(Gpu) <==> Exhausted(capacity, s, Npu) && !Exhausted(capacity, s, Gpu)
                                              && (r.cmd != EnsureModel || capacity.npu.None?))
            && (t.busy <==> t.phase != Admitted(Npu) && t.phase != Admitted(Gpu))
            && (t.busy ==> t.phase == Closed && t.answers == 1)
  {
    RunKeeps(capacity, Fresh(capacity), acts);
    assert Tidy(capacity, Run(capacity, Fresh(capacity), acts).requests[i]);
  }

  // ----- Every request ends -----

  /** The steps that a request has at most before it, the turns at the closed thermal gate apart. */
  function Left(r: Request): nat {
    match r.phase
    case Waiting => 12
    case Admitted(_) => 11
    case Refused => 1
    case Body(_, pc) => if pc < 6 then 10 - pc else 5
    case Handling(_) => 4
    case Cleanup(_, next) => (match next case Lower => 3 case Disarm => 2 case Release => 1)
    case Closed => 0
  }

  function LeftInAll(s: State): nat {
    Sum(s.requests, Left)
  }

  /** Request `i` has not ended, and does not merely wait once more at the closed thermal gate. */
  predicate Proceeds(s: State, i: nat, outcome: Outcome) {
    i < |s.requests|
    && var r := s.requests[i];
       r.phase != Closed
       && !(r.phase.Body? && r.phase.pc < |Program(r.cmd, r.phase.pool)|
            && Program(r.cmd, r.phase.pool)[r.phase.pc] == Gate && outcome == Waits)
  }

  /** Requests go on, one after the other. */
  predicate AllOpen(capacity: Capacity, s: State, turns: seq<(nat, Outcome)>)
    decreases |turns|
  {
    turns == []
    || (Proceeds(s, turns[0].0, turns[0].1) && AllOpen(capacity, Next(capacity, s, turns[0].0, turns[0].1), turns[1..]))
  }

  function Turns(capacity: Capacity, s: State, turns: seq<(nat, Outcome)>): State
    requires AllOpen(capacity, s, turns)
    decreases |turns|
  {
    if turns == [] then s else Turns(capacity, Next(capacity, s, turns[0].0, turns[0].1), turns[1..])
  }

  lemma BodyShortens(capacity: Capacity, s: State, i: nat, pool: Pool, pc: nat, outcome: Outcome)
    requires Proceeds(s, i, outcome) && Tidy(capacity, s.requests[i]) && s.requests[i].phase == Body(pool, pc)
    ensures Left(Next(capacity, s, i, outcome).requests[i]) < Left(s.requests[i])
  {
    var r := s.requests[i];
    assert |Program(r.cmd, pool)| <= 6;
    if Program(r.cmd, pool)[pc] != Raise && Program(r.cmd, pool)[pc] != Arm { RaisesLate(r.cmd, pool, pc, r); }
  }

  lemma NextShortens(capacity: Capacity, s: State, i: nat, outcome: Outcome)
    requires Proceeds(s, i, outcome) && Tidy(capacity, s.requests[i])
    ensures Left(Next(capacity, s, i, outcome).requests[i]) < Left(s.requests[i])
  {
    if s.requests[i].phase.Body? {
      BodyShortens(capacity, s, i, s.requests[i].phase.pool, s.requests[i].phase.pc, outcome);
    }
  }

  /**
   A request that has not ended can always go on, whatever the others do, and after at most `LeftInAll`
   steps of the present requests, besides waits at the thermal gate, all have ended and every slot is free again.
   */
  lemma {:induction false} EveryoneCloses(capacity: Capacity, s: State, turns: seq<(nat, Outcome)>)
    requires Conserved(capacity, s) && AllTidy(capacity, s) && AllOpen(capacity, s, turns)
    ensures |turns| + LeftInAll(Turns(capacity, s, turns)) <= LeftInAll(s)
    ensures var t := Turns(capacity, s, turns);
            (forall i :: 0 <= i < |t.requests| ==> t.requests[i].phase == Closed)
            ==> t.npuFree == Size(capacity, Npu) && t.gpuFree == Size(capacity, Gpu) && t.active == 0 && t.watched == 0
    decreases |turns|
  {
    if turns == [] {
      if forall i :: 0 <= i < |s.requests| ==> s.requests[i].phase == Closed { AllClosed(capacity, s); }
    } else {
      var (i, outcome) := turns[0];
      NextShortens(capacity, s, i, outcome);
      NextChanges(capacity, s, i, outcome);
      SumUpdate(s.requests, Left, i, Next(capacity, s, i, outcome).requests[i]);
      NextKeeps(capacity, s, i, outcome);
      EveryoneCloses(capacity, Next(capacity, s, i, outcome), turns[1..]);
    }
  }

  lemma AllClosed(capacity: Capacity, s: State)
    requires Conserved(capacity, s) && forall i :: 0 <= i < |s.requests| ==> s.requests[i].phase == Closed
    ensures s.npuFree == Size(capacity, Npu) && s.gpuFree == Size(capacity, Gpu) && s.active == 0 && s.watched == 0
  {
    SumZero(s.requests, HoldsNpu);
    SumZero(s.requests, HoldsGpu);
    SumZero(s.requests, Active);
    SumZero(s.requests, Watched);
  }

  // ----- The thermal gate -----

  /** A translation or a speech job gets to its successful answer only through the thermal gate. */
  lemma GateBeforeAnswer(capacity: Capacity, s: State, i: nat, outcome: Outcome)
    requires i < |s.requests| && Tidy(capacity, s.requests[i]) && s.requests[i].phase.Body?
    requires s.requests[i].cmd != EnsureModel && Next(capacity, s, i, outcome).requests[i].phase.Cleanup?
    ensures HasRun(s.requests[i], Gate) && outcome != Raises
  {
    var r := s.requests[i];
    var program := Program(r.cmd, r.phase.pool);
    assert program[r.phase.pc] == Answer && program[3] == Gate;
    assert r.phase.pc == 5;
  }
}
