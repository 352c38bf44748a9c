/**
 The job queue of jobqueue.py and job_worker.py as interleaved steps. Rows live in the database,
 which commits one statement at a time; the codes of waiting jobs travel as tokens through an
 in-memory queue per server process and through the shared Valkey list, both first in, first out.
 */
module JobQueue {
  import opened Text

  type Code = string
  type Process = nat

  datatype Status = Pending | Processing | Completed | Failed | Cancelled | Deleted

  /** A row: its status, whether its handler can be loaded, and the checkpoint-edited flag. */
  datatype Row = Row(status: Status, runnable: bool, edited: bool)

  /** Where a server's worker thread stands in `_process_queue` and `_run_job`. */
  datatype Worker =
    | Idle
    | Took(code: Code)
    | Rejecting(code: Code)
    | Ready(code: Code)
    | Running(code: Code)

  /**
   A server process: its worker, its in-memory queue, the resubmissions that passed their check, and the
   enqueues whose row is committed and whose token is still to be put. A crash loses all of it.
   */
  datatype Server =
    | Down
    | Up(worker: Worker, memory: seq<Code>, checked: multiset<Code>, submitting: multiset<Code>)

  /**
   `valkey` says that the Valkey server answers, `settled` that a boot has followed the last crash. `starts`
   counts the handlers started for a code and `enqueued` the times it was made pending.
   */
  datatype State = State(
    jobs: map<Code, Row>,
    list: seq<Code>,
    valkey: bool,
    servers: seq<Server>,
    settled: bool,
    starts: map<Code, nat>,
    enqueued: map<Code, nat>)

  /** What a web request does in its process, statement by statement. */
  datatype Request =
    | Add(c: Code, runnable: bool)
    | ResubmitCheck(c: Code, withCheckpoint: bool)
    | ResubmitCommit(c: Code)
    | PutToken(c: Code)

  /** What the worker thread of a process does next. */
  datatype Task = PopList | PopMemory | LoadRow | Reject | Claim | Finish(ok: bool)

  /**
   What concerns the database or Valkey alone. A push to the list may happen at any time, repeatedly or
   never, and the list may be emptied at any time: that covers a Valkey that duplicates and restarts.
   */
  datatype Event =
    | Push(c: Code)
    | LoseList
    | Valkey(up: bool)
    | Cancel(c: Code)
    | Delete(c: Code)
    | MarkEdited(c: Code)
    | ClearDeleted

  datatype Action =
    | Serve(p: Process, request: Request)
    | Work(p: Process, task: Task)
    | Outside(event: Event)
    | Crash(p: Process)
    | Boot(p: Process, order: seq<Code>)

  function Count(m: map<Code, nat>, c: Code): nat {
    if c in m then m[c] else 0
  }

  predicate HasStatus(s: State, c: Code, status: Status) {
    c in s.jobs && s.jobs[c].status == status
  }

  predicate IsUp(s: State, p: Process) {
    p < |s.servers| && s.servers[p].Up?
  }

  function Hand(s: State, p: Process): Worker
    requires IsUp(s, p)
  {
    s.servers[p].worker
  }

  /** An UPDATE that names one row: nothing happens when it does not exist. */
  function Update(jobs: map<Code, Row>, c: Code, status: Status): map<Code, Row> {
    if c in jobs then jobs[c := jobs[c].(status := status)] else jobs
  }

  function CountOne(m: map<Code, nat>, c: Code): map<Code, nat> {
    m[c := Count(m, c) + 1]
  }

  function WithServer(s: State, p: Process, server: Server): State
    requires p < |s.servers|
  {
    s.(servers := s.servers[p := server])
  }

  function WithWorker(s: State, p: Process, w: Worker): State
    requires IsUp(s, p)
  {
    WithServer(s, p, s.servers[p].(worker := w))
  }

  // ----- The steps -----

  /** The check of `resubmit_job`. */
  predicate MayResubmit(s: State, c: Code, withCheckpoint: bool) {
    c in s.jobs &&
    match s.jobs[c].status
    case Completed => withCheckpoint || s.jobs[c].edited
    case Failed => true
    case Cancelled => true
    case _ => false
  }

  /** `add_job` up to its commit; INSERT OR REPLACE takes over an existing row. */
  function AddStep(s: State, p: Process, c: Code, runnable: bool): State
    requires IsUp(s, p)
  {
    var put := WithServer(s, p, s.servers[p].(submitting := s.servers[p].submitting + multiset{c}));
    put.(jobs := s.jobs[c := Row(Pending, runnable, false)], enqueued := CountOne(s.enqueued, c))
  }

  /** `resubmit_job` from its check to its commit, which looks at the row no more. */
  function CommitStep(s: State, p: Process, c: Code): State
    requires IsUp(s, p)
  {
    var put := WithServer(s, p, s.servers[p].(checked := s.servers[p].checked - multiset{c},
                                              submitting := s.servers[p].submitting + multiset{c}));
    if c in s.jobs then
      put.(jobs := s.jobs[c := s.jobs[c].(status := Pending, edited := false)], enqueued := CountOne(s.enqueued, c))
    else put
  }

  function PutStep(s: State, p: Process, c: Code): State
    requires IsUp(s, p)
  {
    WithServer(s, p, s.servers[p].(submitting := s.servers[p].submitting - multiset{c},
                                   memory := s.servers[p].memory + [c]))
  }

  function ServeStep(s: State, p: Process, r: Request): State
    requires IsUp(s, p)
  {
    match r
    case Add(c, runnable) => AddStep(s, p, c, runnable)
    case ResubmitCheck(c, withCheckpoint) =>
      if MayResubmit(s, c, withCheckpoint)
      then WithServer(s, p, s.servers[p].(checked := s.servers[p].checked + multiset{c})) else s
    case ResubmitCommit(c) => if c in s.servers[p].checked then CommitStep(s, p, c) else s
    case PutToken(c) => if c in s.servers[p].submitting then PutStep(s, p, c) else s
  }

  /** The row is read at the start of `_run_job`: a job without a handler is on its way to be failed. */
  function Loaded(s: State, c: Code): Worker {
    if c !in s.jobs then Idle else if s.jobs[c].runnable then Ready(c) else Rejecting(c)
  }

  /** Where the worker's task takes it; a task that it cannot do now leaves it where it is. */
  function NextHand(s: State, p: Process, task: Task): Worker
    requires IsUp(s, p)
  {
    match (task, Hand(s, p))
    case (PopList, Idle) => if s.valkey && s.list != [] then Took(s.list[0]) else Idle
    case (PopMemory, Idle) =>
      if (s.list == [] || !s.valkey) && s.servers[p].memory != [] then Took(s.servers[p].memory[0]) else Idle
    case (LoadRow, Took(c)) => Loaded(s, c)
    case (Reject, Rejecting(_)) => Idle
    case (Claim, Ready(c)) => if HasStatus(s, c, Pending) then Running(c) else Idle
    case (Finish(_), Running(_)) => Idle
    case (_, w) => w
  }

  /** The row that the task writes, with its new status: the claim is conditional, the outcomes are not. */
  function Writes(s: State, p: Process, task: Task): Option<(Code, Status)>
    requires IsUp(s, p)
  {
    match (task, Hand(s, p))
    case (Reject, Rejecting(c)) => Some((c, Failed))
    case (Claim, Ready(c)) => if HasStatus(s, c, Pending) then Some((c, Processing)) else None
    case (Finish(ok), Running(c)) => Some((c, if ok then Completed else Failed))
    case _ => None
  }

  /** The worker prefers the list, and takes from its own queue when the list is empty or out of reach. */
  function WorkStep(s: State, p: Process, task: Task): State
    requires IsUp(s, p)
  {
    var hand, written := NextHand(s, p, task), Writes(s, p, task);
    var popped := hand.Took? && Hand(s, p).Idle?;
    var memory := if popped && task == PopMemory then s.servers[p].memory[1..] else s.servers[p].memory;
    WithServer(s, p, s.servers[p].(worker := hand, memory := memory))
      .(list := if popped && task == PopList then s.list[1..] else s.list,
        jobs := if written.Some? then Update(s.jobs, written.value.0, written.value.1) else s.jobs,
        starts := if written.Some? && written.value.1 == Processing then CountOne(s.starts, written.value.0)
                  else s.starts)
  }

  function EventStep(s: State, e: Event): State {
    match e
    case Push(c) => s.(list := s.list + [c])
    case LoseList => s.(list := [])
    case Valkey(up) => s.(valkey := up)
    case Cancel(c) =>
      if HasStatus(s, c, Pending) || HasStatus(s, c, Processing) then s.(jobs := Update(s.jobs, c, Cancelled)) else s
    case Delete(c) => s.(jobs := Update(s.jobs, c, Deleted))
    case MarkEdited(c) => if c in s.jobs then s.(jobs := s.jobs[c := s.jobs[c].(edited := true)]) else s
    case ClearDeleted => s.(jobs := map c | c in s.jobs && s.jobs[c].status != Deleted :: s.jobs[c])
  }

  function Recovered(row: Row): Row {
    if row.status == Processing then row.(status := Pending) else row
  }

  /** The jobs that a boot finds pending. */
  function Recoverable(s: State): set<Code> {
    set c | c in s.jobs && Recovered(s.jobs[c]).status == Pending
  }

  /** `_load_pending_jobs`: interrupted jobs are pending again, and every pending job gets its token. */
  function BootStep(s: State, p: Process, order: seq<Code>): State
    requires p < |s.servers|
  {
    WithServer(s, p, Up(Idle, order, multiset{}, multiset{}))
      .(jobs := map c | c in s.jobs :: Recovered(s.jobs[c]), settled := true,
        enqueued := map c | c in s.enqueued.Keys + s.jobs.Keys
                      :: Count(s.enqueued, c) + if HasStatus(s, c, Processing) then 1 else 0)
  }

  /** A process that is down boots with the pending rows in the order in which the database returns them. */
  predicate CanBoot(s: State, p: Process, order: seq<Code>) {
    p < |s.servers| && s.servers[p] == Down && multiset(order) == multiset(Recoverable(s))
  }

  /** One step; an action that is not possible changes nothing. */
  function Step(s: State, a: Action): State {
    match a
    case Serve(p, r) => if IsUp(s, p) then ServeStep(s, p, r) else s
    case Work(p, task) => if IsUp(s, p) then WorkStep(s, p, task) else s
    case Outside(e) => EventStep(s, e)
    case Crash(p) => if IsUp(s, p) then WithServer(s, p, Down).(settled := false) else s
    case Boot(p, order) => if CanBoot(s, p, order) then BootStep(s, p, order) else s
  }

  function Run(s: State, acts: seq<Action>): State
    decreases |acts|
  {
    if acts == [] then s else Run(Step(s, acts[0]), acts[1..])
  }

  /** Before the first boot: rows from an earlier life of the server, and no process that is up. */
  function Initial(jobs: map<Code, Row>, list: seq<Code>, n: nat): State {
    State(jobs, list, true, seq(n, i => Down), false, map[],
          map c | c in jobs && jobs[c].status == Pending :: 1)
  }

  // ----- What the steps leave alone -----

  /** The server whose state an action changes. */
  function Actor(a: Action): Option<Process> {
    match a
    case Outside(_) => None
    case _ => Some(a.p)
  }

  lemma ServeElsewhere(s: State, q: Process, r: Request, p: Process)
    requires IsUp(s, q)
    ensures |ServeStep(s, q, r).servers| == |s.servers|
    ensures p < |s.servers| && p != q ==> ServeStep(s, q, r).servers[p] == s.servers[p]
    ensures IsUp(ServeStep(s, q, r), q) && Hand(ServeStep(s, q, r), q) == Hand(s, q)
  {
    match r
    case Add(_, _) =>
    case ResubmitCheck(_, _) =>
    case ResubmitCommit(_) =>
    case PutToken(_) =>
  }

  lemma OthersUntouched(s: State, a: Action, p: Process)
    requires Actor(a) != Some(p)
    ensures |Step(s, a).servers| == |s.servers|
    ensures p < |s.servers| ==> Step(s, a).servers[p] == s.servers[p]
  {
    if a.Serve? && IsUp(s, a.p) { ServeElsewhere(s, a.p, a.request, p); }
  }

  /** What one step leaves of the row of `c`, with its counts: as it was, or newly pending. */
  predicate RowKept(s: State, t: State, c: Code) {
    Lookup(t.jobs, c) == Lookup(s.jobs, c) && Count(t.enqueued, c) == Count(s.enqueued, c)
  }

  predicate RowEnqueued(s: State, t: State, p: Process, c: Code) {
    HasStatus(t, c, Pending) && Count(t.enqueued, c) == Count(s.enqueued, c) + 1
    && IsUp(t, p) && c in t.servers[p].submitting
  }

  lemma AddRow(s: State, p: Process, d: Code, runnable: bool, c: Code)
    requires IsUp(s, p)
    ensures var t := AddStep(s, p, d, runnable); if c == d then RowEnqueued(s, t, p, c) else RowKept(s, t, c)
  {
  }

  lemma CommitRow(s: State, p: Process, d: Code, c: Code)
    requires IsUp(s, p)
    ensures var t := CommitStep(s, p, d); if c == d && d in s.jobs then RowEnqueued(s, t, p, c) else RowKept(s, t, c)
  {
  }

  /** A request changes the row of `c` only when it makes `c` pending, and starts nothing. */
  lemma ServeRow(s: State, p: Process, r: Request, c: Code)
    requires IsUp(s, p)
    ensures var t := ServeStep(s, p, r);
            && t.starts == s.starts && t.settled == s.settled
            && (RowKept(s, t, c) || (Enqueues(r, c) && RowEnqueued(s, t, p, c)))
  {
    match r
    case Add(d, runnable) => AddRow(s, p, d, runnable, c);
    case ResubmitCheck(_, _) =>
    case ResubmitCommit(d) => CommitRow(s, p, d, c);
    case PutToken(_) =>
  }

  /** The requests that make `c` pending. */
  predicate Enqueues(r: Request, c: Code) {
    r.c == c && (r.Add? || r.ResubmitCommit?)
  }

  /** An event changes the row of `c` only by asking for it; otherwise at most its edited flag. */
  lemma EventRow(s: State, e: Event, c: Code)
    ensures var t := EventStep(s, e);
            && t.servers == s.servers && t.starts == s.starts && t.enqueued == s.enqueued && t.settled == s.settled
            && (c in t.jobs ==> c in s.jobs && t.jobs[c].runnable == s.jobs[c].runnable)
            && (c in t.jobs && t.jobs[c].status != s.jobs[c].status ==>
                  (e == Cancel(c) && t.jobs[c].status == Cancelled) || (e == Delete(c) && t.jobs[c].status == Deleted))
            && (c in s.jobs && c !in t.jobs ==> s.jobs[c].status == Deleted)
  {
    match e
    case Cancel(_) =>
    case Delete(_) =>
    case _ =>
  }

  /** What a task does to the row of `c`. */
  lemma WorkRow(s: State, p: Process, task: Task, c: Code)
    requires IsUp(s, p)
    ensures var t, w := WorkStep(s, p, task), Writes(s, p, task);
            && t.enqueued == s.enqueued && t.settled == s.settled
            && (c in t.jobs <==> c in s.jobs)
            && (c in s.jobs && w.Some? && w.value.0 == c ==> t.jobs[c] == s.jobs[c].(status := w.value.1))
            && (c in s.jobs && !(w.Some? && w.value.0 == c) ==> t.jobs[c] == s.jobs[c])
            && Count(t.starts, c)
               == Count(s.starts, c) + if w.Some? && w.value == (c, Processing) then 1 else 0
  {
  }

  /** What a task writes says what the worker held. */
  lemma WritesHand(s: State, p: Process, task: Task)
    requires IsUp(s, p) && Writes(s, p, task).Some?
    ensures var (c, status) := Writes(s, p, task).value;
            if status == Processing then
              Hand(s, p) == Ready(c) && HasStatus(s, c, Pending) && NextHand(s, p, task) == Running(c)
            else (Hand(s, p) == Running(c) || Hand(s, p) == Rejecting(c)) && (status == Completed || status == Failed)
  {
  }

  lemma BootRow(s: State, p: Process, order: seq<Code>, c: Code)
    requires p < |s.servers|
    ensures var t := BootStep(s, p, order);
            && (c in t.jobs <==> c in s.jobs) && (c in s.jobs ==> t.jobs[c] == Recovered(s.jobs[c]))
            && t.starts == s.starts
            && Count(t.enqueued, c) == Count(s.enqueued, c) + if HasStatus(s, c, Processing) then 1 else 0
  {
  }

  // ----- No pending job is lost -----

  predicate InHand(w: Worker, c: Code) {
    w == Took(c) || w == Rejecting(c) || w == Ready(c)
  }

  /** A process that is up holds a token of `c`: in its own queue, in a request, or in its worker's hand. */
  predicate Holds(s: State, p: Process, c: Code) {
    IsUp(s, p) &&
    (c in s.servers[p].memory || c in s.servers[p].submitting || InHand(Hand(s, p), c))
  }

  ghost predicate HasToken(s: State, c: Code) {
    exists p :: Holds(s, p, c)
  }

  predicate Runs(s: State, p: Process, c: Code) {
    IsUp(s, p) && Hand(s, p) == Running(c)
  }

  ghost predicate IsRunning(s: State, c: Code) {
    exists p :: Runs(s, p, c)
  }

  /** A pending job has a token with some process, and a processing one a worker that runs it. */
  ghost predicate Safe(s: State, c: Code) {
    && (HasStatus(s, c, Pending) ==> HasToken(s, c))
    && (HasStatus(s, c, Processing) ==> IsRunning(s, c))
  }

  ghost predicate NoneLost(s: State) {
    forall c :: Safe(s, c)
  }

  ghost predicate Inv(s: State) {
    s.settled ==> NoneLost(s)
  }

  lemma PutKeepsToken(s: State, p: Process, d: Code, c: Code)
    requires IsUp(s, p) && Holds(s, p, c)
    ensures Holds(PutStep(s, p, d), p, c)
  {
    if c in s.servers[p].memory {
      assert c in s.servers[p].memory + [d];
    } else if c == d {
      assert c in s.servers[p].memory + [c];
    }
  }

  lemma ServeKeepsToken(s: State, q: Process, r: Request, p: Process, c: Code)
    requires IsUp(s, q) && Holds(s, p, c)
    ensures Holds(ServeStep(s, q, r), p, c)
  {
    ServeElsewhere(s, q, r, p);
    if p == q {
      match r
      case Add(_, _) =>
      case ResubmitCheck(_, _) =>
      case ResubmitCommit(_) =>
      case PutToken(d) => PutKeepsToken(s, p, d, c);
    }
  }

  lemma ServeSafe(s: State, q: Process, r: Request, c: Code)
    requires IsUp(s, q) && Safe(s, c)
    ensures Safe(ServeStep(s, q, r), c)
  {
    var t := ServeStep(s, q, r);
    ServeRow(s, q, r, c);
    ServeElsewhere(s, q, r, q);
    if Lookup(t.jobs, c) != Lookup(s.jobs, c) {
      assert Holds(t, q, c);
    } else if HasStatus(t, c, Pending) {
      var p :| Holds(s, p, c);
      ServeKeepsToken(s, q, r, p, c);
    } else if HasStatus(t, c, Processing) {
      var p :| Runs(s, p, c);
      ServeElsewhere(s, q, r, p);
      assert Runs(t, p, c);
    }
  }

  /** A token stays with its holder until the worker that took it has claimed or rejected the job. */
  lemma WorkKeepsToken(s: State, q: Process, task: Task, p: Process, c: Code)
    requires IsUp(s, q) && Holds(s, p, c) && HasStatus(WorkStep(s, q, task), c, Pending)
    ensures Holds(WorkStep(s, q, task), p, c)
  {
    if p == q {
      WorkRow(s, q, task, c);
      if InHand(Hand(s, q), c) {
        HandKeepsToken(s, q, task, c);
      } else if task == PopMemory && c in s.servers[q].memory {
        PopKeepsToken(s, q, c);
      }
    }
  }

  lemma HandKeepsToken(s: State, q: Process, task: Task, c: Code)
    requires IsUp(s, q) && InHand(Hand(s, q), c) && HasStatus(s, c, Pending)
    requires !(Writes(s, q, task).Some? && Writes(s, q, task).value.0 == c)
    ensures InHand(NextHand(s, q, task), c)
  {
  }

  lemma PopKeepsToken(s: State, q: Process, c: Code)
    requires IsUp(s, q) && c in s.servers[q].memory
    ensures Holds(WorkStep(s, q, PopMemory), q, c)
  {
  }

  lemma WorkSafe(s: State, q: Process, task: Task, c: Code)
    requires IsUp(s, q) && Safe(s, c)
    ensures Safe(WorkStep(s, q, task), c)
  {
    var t := WorkStep(s, q, task);
    WorkRow(s, q, task, c);
    if HasStatus(t, c, Pending) {
      if !HasStatus(s, c, Pending) { WritesHand(s, q, task); }
      var p :| Holds(s, p, c);
      WorkKeepsToken(s, q, task, p, c);
    } else if HasStatus(t, c, Processing) {
      if !HasStatus(s, c, Processing) {
        WritesHand(s, q, task);
        assert Runs(t, q, c);
      } else {
        var p :| Runs(s, p, c);
        if p == q && Writes(s, q, task).Some? { WritesHand(s, q, task); }
        assert Runs(t, p, c);
      }
    }
  }

  lemma EventSafe(s: State, e: Event, c: Code)
    requires Safe(s, c)
    ensures Safe(EventStep(s, e), c)
  {
    var t := EventStep(s, e);
    EventRow(s, e, c);
    if HasStatus(t, c, Pending) {
      var p :| Holds(s, p, c);
      assert Holds(t, p, c);
    } else if HasStatus(t, c, Processing) {
      var p :| Runs(s, p, c);
      assert Runs(t, p, c);
    }
  }

  /** Boot recovery makes every pending job reachable again, whatever state the crash left. */
  lemma BootRecovers(s: State, p: Process, order: seq<Code>)
    requires CanBoot(s, p, order)
    ensures NoneLost(BootStep(s, p, order))
    ensures forall c :: !HasStatus(BootStep(s, p, order), c, Processing)
    ensures forall c :: HasStatus(BootStep(s, p, order), c, Pending)
                        <==> HasStatus(s, c, Pending) || HasStatus(s, c, Processing)
  {
    var t := BootStep(s, p, order);
    forall c | HasStatus(t, c, Pending)
      ensures HasToken(t, c)
    {
      assert c in multiset(Recoverable(s));
      assert c in multiset(order);
      assert Holds(t, p, c);
    }
  }

  lemma StepKeepsInv(s: State, a: Action)
    requires Inv(s)
    ensures Inv(Step(s, a))
  {
    var t := Step(s, a);
    if a.Boot? && CanBoot(s, a.p, a.order) {
      BootRecovers(s, a.p, a.order);
    } else if t.settled && t != s {
      forall c
        ensures Safe(t, c)
      {
        SettledStepSafe(s, a, c);
      }
    }
  }

  lemma SettledStepSafe(s: State, a: Action, c: Code)
    requires Inv(s) && Step(s, a).settled && Step(s, a) != s && !a.Boot?
    ensures Safe(Step(s, a), c)
  {
    match a
    case Serve(p, r) =>
      ServeRow(s, p, r, c);
      ServeSafe(s, p, r, c);
    case Work(p, task) => WorkSafe(s, p, task, c);
    case Outside(e) =>
      EventRow(s, e, c);
      EventSafe(s, e, c);
    case Crash(_) =>
  }

  lemma {:induction false} RunKeepsInv(s: State, acts: seq<Action>)
    requires Inv(s)
    ensures Inv(Run(s, acts))
    decreases |acts|
  {
    if acts != [] {
      StepKeepsInv(s, acts[0]);
      RunKeepsInv(Step(s, acts[0]), acts[1..]);
    }
  }

  /**
   Over every interleaving from every initial database: once a boot has followed the last crash, each
   pending job has a token that some process holds, whatever happens to the Valkey list, and each
   processing job is the one some worker runs.
   */
  lemma NothingIsLost(jobs: map<Code, Row>, list: seq<Code>, n: nat, acts: seq<Action>)
    ensures Run(Initial(jobs, list, n), acts).settled
            ==> NoneLost(Run(Initial(jobs, list, n), acts))
  {
    RunKeepsInv(Initial(jobs, list, n), acts);
  }

  lemma {:induction false} RunKeepsProcesses(s: State, acts: seq<Action>)
    ensures |Run(s, acts).servers| == |s.servers|
    decreases |acts|
  {
    if acts != [] {
      OthersUntouched(s, acts[0], if Actor(acts[0]) == Some(0) then 1 else 0);
      RunKeepsProcesses(Step(s, acts[0]), acts[1..]);
    }
  }

  /** With one server process at most one job is processing, and it is the worker's current one. */
  lemma OneProcessing(jobs: map<Code, Row>, list: seq<Code>, acts: seq<Action>, c: Code)
    requires Run(Initial(jobs, list, 1), acts).settled
    requires HasStatus(Run(Initial(jobs, list, 1), acts), c, Processing)
    ensures Runs(Run(Initial(jobs, list, 1), acts), 0, c)
  {
    RunKeepsInv(Initial(jobs, list, 1), acts);
    RunKeepsProcesses(Initial(jobs, list, 1), acts);
    assert Safe(Run(Initial(jobs, list, 1), acts), c);
  }

  // ----- A pending job can start -----

  lemma {:induction false} RunAppend(s: State, first: seq<Action>, second: seq<Action>)
    ensures Run(s, first + second) == Run(Run(s, first), second)
    decreases |first|
  {
    if first == [] {
      assert first + second == second;
    } else {
      assert (first + second)[0] == first[0];
      assert (first + second)[1..] == first[1..] + second;
      RunAppend(Step(s, first[0]), first[1..], second);
    }
  }

  lemma RunOne(s: State, a: Action)
    ensures Run(s, [a]) == Step(s, a)
  {
  }

  lemma RunLast(s: State, acts: seq<Action>, a: Action)
    ensures Run(s, acts + [a]) == Step(Run(s, acts), a)
  {
    RunAppend(s, acts, [a]);
    RunOne(Run(s, acts), a);
  }

  /** What process `p` can do on its own: put the token of `c`, and let its worker work. */
  predicate OwnWork(acts: seq<Action>, p: Process, c: Code) {
    forall a :: a in acts ==> a == Serve(p, PutToken(c)) || (a.Work? && a.p == p)
  }

  /** The worker of `p` is at something else, and `c` waits for it. */
  predicate Waits(s: State, p: Process, c: Code) {
    && IsUp(s, p) && !InHand(Hand(s, p), c) && Hand(s, p) != Running(c)
    && HasStatus(s, c, Pending) && s.jobs[c].runnable
    && (c in s.servers[p].memory || c in s.servers[p].submitting)
  }

  /** How far a worker is from being idle. */
  function Rank(w: Worker): nat {
    match w
    case Idle => 0
    case Running(_) => 1
    case Ready(_) => 2
    case Rejecting(_) => 2
    case Took(_) => 3
  }

  function NextTask(w: Worker): Task
    requires w != Idle
  {
    match w
    case Running(_) => Finish(true)
    case Ready(_) => Claim
    case Rejecting(_) => Reject
    case Took(_) => LoadRow
  }

  /** A worker at another job gets on with it, without touching the tokens, the row and the starts of `c`. */
  lemma OtherWork(s: State, p: Process, c: Code)
    requires Waits(s, p, c) && Hand(s, p) != Idle
    ensures var t := WorkStep(s, p, NextTask(Hand(s, p)));
            && Waits(t, p, c) && Rank(Hand(t, p)) < Rank(Hand(s, p)) && Count(t.starts, c) == Count(s.starts, c)
            && t.list == s.list && t.valkey == s.valkey && t.servers[p].memory == s.servers[p].memory
  {
    WorkRow(s, p, NextTask(Hand(s, p)), c);
  }

  /** The worker holds `c` and has not yet claimed it. */
  predicate AboutToStart(s: State, p: Process, c: Code) {
    IsUp(s, p) && (Hand(s, p) == Took(c) || Hand(s, p) == Ready(c)) && HasStatus(s, c, Pending) && s.jobs[c].runnable
  }

  ghost predicate StartedOnce(s: State, t: State, p: Process, c: Code) {
    Runs(t, p, c) && HasStatus(t, c, Processing) && Count(t.starts, c) == Count(s.starts, c) + 1
  }

  lemma HeldStarts(s: State, p: Process, c: Code) returns (acts: seq<Action>)
    requires AboutToStart(s, p, c)
    ensures OwnWork(acts, p, c) && StartedOnce(s, Run(s, acts), p, c)
  {
    var t := WorkStep(s, p, LoadRow);
    WorkRow(s, p, LoadRow, c);
    WorkRow(t, p, Claim, c);
    acts := [Work(p, LoadRow)] + [Work(p, Claim)];
    RunOne(s, Work(p, LoadRow));
    RunLast(s, [Work(p, LoadRow)], Work(p, Claim));
  }

  /** The first token in line is taken; if it is not that of `c`, then `c` waits on. */
  lemma PopsList(s: State, p: Process, c: Code)
    requires Waits(s, p, c) && Hand(s, p) == Idle && s.valkey && s.list != []
    ensures var t := WorkStep(s, p, PopList);
            && (if s.list[0] == c then AboutToStart(t, p, c) else Waits(t, p, c))
            && Count(t.starts, c) == Count(s.starts, c)
            && t.list == s.list[1..] && t.valkey == s.valkey && t.servers[p].memory == s.servers[p].memory
  {
    WorkRow(s, p, PopList, c);
  }

  lemma PopsMemory(s: State, p: Process, c: Code)
    requires Waits(s, p, c) && Hand(s, p) == Idle && !(s.valkey && s.list != [])
    requires s.servers[p].memory != []
    ensures var t := WorkStep(s, p, PopMemory);
            && (if s.servers[p].memory[0] == c then AboutToStart(t, p, c) else Waits(t, p, c))
            && Count(t.starts, c) == Count(s.starts, c)
            && t.list == s.list && t.valkey == s.valkey && t.servers[p].memory == s.servers[p].memory[1..]
  {
    WorkRow(s, p, PopMemory, c);
  }

  lemma Puts(s: State, p: Process, c: Code)
    requires Waits(s, p, c) && s.servers[p].memory == []
    ensures var t := ServeStep(s, p, PutToken(c));
            && Waits(t, p, c) && Count(t.starts, c) == Count(s.starts, c) && t.list == s.list && t.valkey == s.valkey
            && t.servers[p].memory == [c] && Hand(t, p) == Hand(s, p)
  {
  }

  /** The worker works through everything in front of `c`, in order, and then starts it. */
  lemma {:induction false} WaitingStarts(s: State, p: Process, c: Code) returns (acts: seq<Action>)
    requires Waits(s, p, c)
    ensures OwnWork(acts, p, c) && StartedOnce(s, Run(s, acts), p, c)
    decreases |s.list|, if c in s.servers[p].memory then 0 else 1, |s.servers[p].memory|, Rank(Hand(s, p))
  {
    var a: Action;
    if Hand(s, p) != Idle {
      OtherWork(s, p, c);
      a := Work(p, NextTask(Hand(s, p)));
    } else if s.valkey && s.list != [] {
      PopsList(s, p, c);
      a := Work(p, PopList);
    } else if s.servers[p].memory != [] {
      PopsMemory(s, p, c);
      a := Work(p, PopMemory);
    } else {
      Puts(s, p, c);
      a := Serve(p, PutToken(c));
    }
    var t := Step(s, a);
    var rest: seq<Action>;
    if AboutToStart(t, p, c) {
      rest := HeldStarts(t, p, c);
    } else {
      rest := WaitingStarts(t, p, c);
    }
    acts := [a] + rest;
    RunOne(s, a);
    RunAppend(s, [a], rest);
  }

  /**
   A token is worth something: from every state where none is lost, a pending job whose handler can be loaded
   and for which no worker is busy is started by the process that holds its token alone, which works through
   the list and its own queue in their order.
   */
  lemma PendingCanStart(s: State, c: Code) returns (p: Process, acts: seq<Action>)
    requires Safe(s, c) && HasStatus(s, c, Pending) && s.jobs[c].runnable && !Busy(s, c)
    ensures OwnWork(acts, p, c) && StartedOnce(s, Run(s, acts), p, c)
  {
    p :| Holds(s, p, c);
    assert !Holding(s, p, c);
    if AboutToStart(s, p, c) {
      acts := HeldStarts(s, p, c);
    } else {
      acts := WaitingStarts(s, p, c);
    }
  }

  // ----- Starts -----

  function PendingNow(s: State, c: Code): nat {
    if HasStatus(s, c, Pending) then 1 else 0
  }

  predicate Paid(s: State, c: Code) {
    Count(s.starts, c) + PendingNow(s, c) <= Count(s.enqueued, c)
  }

  lemma StepPays(s: State, a: Action, c: Code)
    requires Paid(s, c)
    ensures Paid(Step(s, a), c)
  {
    match a
    case Serve(p, r) => if IsUp(s, p) { ServeRow(s, p, r, c); }
    case Work(p, task) =>
      if IsUp(s, p) {
        WorkRow(s, p, task, c);
        if Writes(s, p, task).Some? { WritesHand(s, p, task); }
      }
    case Outside(e) => EventRow(s, e, c);
    case Boot(p, order) => if CanBoot(s, p, order) { BootRow(s, p, order, c); }
    case Crash(_) =>
  }

  lemma {:induction false} RunPays(s: State, acts: seq<Action>, c: Code)
    requires Paid(s, c)
    ensures Paid(Run(s, acts), c)
    decreases |acts|
  {
    if acts != [] {
      StepPays(s, acts[0], c);
      RunPays(Step(s, acts[0]), acts[1..], c);
    }
  }

  /**
   A job's handler starts at most as often as the job was made pending, over every run with any number
   of consumers and any duplication of tokens; one start fewer while it is pending.
   */
  lemma StartsAtMostEnqueued(jobs: map<Code, Row>, list: seq<Code>, n: nat, acts: seq<Action>, c: Code)
    ensures var t := Run(Initial(jobs, list, n), acts);
            Count(t.starts, c) + PendingNow(t, c) <= Count(t.enqueued, c)
  {
    RunPays(Initial(jobs, list, n), acts, c);
  }

  // ----- What becomes of a row that nobody asks about -----

  /** The actions by which somebody asks for another status of `c`, or for its row to go. */
  predicate Asks(a: Action, c: Code) {
    match a
    case Serve(_, r) => Enqueues(r, c)
    case Outside(e) => e == Delete(c) || e == Cancel(c)
    case _ => false
  }

  ghost predicate NobodyAsks(acts: seq<Action>, c: Code) {
    forall a :: a in acts ==> !Asks(a, c)
  }

  /** Neither pending nor processing: cancelled, deleted, finished or gone. */
  predicate Withdrawn(s: State, c: Code) {
    !HasStatus(s, c, Pending) && !HasStatus(s, c, Processing)
  }

  lemma StepKeepsWithdrawn(s: State, a: Action, c: Code)
    requires Withdrawn(s, c) && !(a.Serve? && Enqueues(a.request, c))
    ensures Withdrawn(Step(s, a), c) && Count(Step(s, a).starts, c) == Count(s.starts, c)
  {
    match a
    case Serve(p, r) => if IsUp(s, p) { ServeRow(s, p, r, c); }
    case Work(p, task) =>
      if IsUp(s, p) {
        WorkRow(s, p, task, c);
        if Writes(s, p, task).Some? { WritesHand(s, p, task); }
      }
    case Outside(e) => EventRow(s, e, c);
    case Boot(p, order) => if CanBoot(s, p, order) { BootRow(s, p, order, c); }
    case Crash(_) =>
  }

  /** A withdrawn job never starts again until it is enqueued again, whatever tokens are still about. */
  lemma {:induction false} WithdrawnNeverStarts(s: State, acts: seq<Action>, c: Code)
    requires Withdrawn(s, c) && forall a :: a in acts && a.Serve? ==> !Enqueues(a.request, c)
    ensures Withdrawn(Run(s, acts), c) && Count(Run(s, acts).starts, c) == Count(s.starts, c)
    decreases |acts|
  {
    if acts != [] {
      assert acts[0] in acts;
      StepKeepsWithdrawn(s, acts[0], c);
      WithdrawnNeverStarts(Step(s, acts[0]), acts[1..], c);
    }
  }

  /** A worker is about to write the outcome of `c` without looking at its status. */
  predicate Holding(s: State, p: Process, c: Code) {
    IsUp(s, p) && (Hand(s, p) == Running(c) || Hand(s, p) == Rejecting(c))
  }

  ghost predicate Busy(s: State, c: Code) {
    exists p :: Holding(s, p, c)
  }

  /** The row of `c` stands at `status`, its handler can be loaded, and no worker is busy with it. */
  ghost predicate Undisturbed(s: State, c: Code, status: Status) {
    HasStatus(s, c, status) && s.jobs[c].runnable && !Busy(s, c)
  }

  /** A handler of `c` has started between `s` and `t`. */
  predicate HasStarted(s: State, t: State, c: Code) {
    Count(t.starts, c) > Count(s.starts, c)
  }

  /** No step but a claim makes a worker busy with a job whose handler can be loaded. */
  lemma HandsStayOff(s: State, a: Action, c: Code, p: Process)
    requires c in s.jobs && s.jobs[c].runnable && !Holding(s, p, c)
    ensures Holding(Step(s, a), p, c) ==> HasStarted(s, Step(s, a), c)
  {
    if Actor(a) != Some(p) {
      OthersUntouched(s, a, p);
    } else if IsUp(s, p) {
      match a
      case Serve(_, r) => ServeElsewhere(s, p, r, p);
      case Work(_, task) =>
        WorkRow(s, p, task, c);
      case Crash(_) =>
      case Boot(_, _) =>
    }
  }

  lemma StepLeavesRow(s: State, a: Action, c: Code, status: Status)
    requires Undisturbed(s, c, status) && (status == Pending || status == Cancelled) && !Asks(a, c)
    ensures if HasStarted(s, Step(s, a), c) then status == Pending
            else HasStatus(Step(s, a), c, status) && Step(s, a).jobs[c].runnable
                 && Count(Step(s, a).starts, c) == Count(s.starts, c)
  {
    match a
    case Serve(p, r) => if IsUp(s, p) { ServeRow(s, p, r, c); }
    case Work(p, task) =>
      if IsUp(s, p) {
        WorkRow(s, p, task, c);
        if Writes(s, p, task).Some? { WritesHand(s, p, task); }
        assert !Holding(s, p, c);
      }
    case Outside(e) => EventRow(s, e, c);
    case Boot(p, order) => if CanBoot(s, p, order) { BootRow(s, p, order, c); }
    case Crash(_) =>
  }

  /** While nobody asks, such a row stays as it is, or a pending one is started. */
  lemma StepKeepsUndisturbed(s: State, a: Action, c: Code, status: Status)
    requires Undisturbed(s, c, status) && (status == Pending || status == Cancelled) && !Asks(a, c)
    ensures if HasStarted(s, Step(s, a), c) then status == Pending
            else Undisturbed(Step(s, a), c, status) && Count(Step(s, a).starts, c) == Count(s.starts, c)
  {
    StepLeavesRow(s, a, c, status);
    forall p
      ensures Holding(Step(s, a), p, c) ==> HasStarted(s, Step(s, a), c)
    {
      assert !Holding(s, p, c);
      HandsStayOff(s, a, c, p);
    }
  }

  lemma StepKeepsStarts(s: State, a: Action, c: Code)
    ensures Count(Step(s, a).starts, c) >= Count(s.starts, c)
  {
    match a
    case Serve(p, r) => if IsUp(s, p) { ServeRow(s, p, r, c); }
    case Work(p, task) => if IsUp(s, p) { WorkRow(s, p, task, c); }
    case Outside(e) => EventRow(s, e, c);
    case Boot(_, _) =>
    case Crash(_) =>
  }

  lemma {:induction false} RunKeepsStarts(s: State, acts: seq<Action>, c: Code)
    ensures Count(Run(s, acts).starts, c) >= Count(s.starts, c)
    decreases |acts|
  {
    if acts != [] {
      StepKeepsStarts(s, acts[0], c);
      RunKeepsStarts(Step(s, acts[0]), acts[1..], c);
    }
  }

  lemma {:induction false} RunKeepsUndisturbed(s: State, acts: seq<Action>, c: Code, status: Status)
    requires Undisturbed(s, c, status) && (status == Pending || status == Cancelled) && NobodyAsks(acts, c)
    ensures HasStatus(Run(s, acts), c, status) || (status == Pending && HasStarted(s, Run(s, acts), c))
    decreases |acts|
  {
    if acts != [] {
      assert acts[0] in acts;
      StepKeepsUndisturbed(s, acts[0], c, status);
      if HasStarted(s, Step(s, acts[0]), c) {
        RunKeepsStarts(Step(s, acts[0]), acts[1..], c);
      } else {
        RunKeepsUndisturbed(Step(s, acts[0]), acts[1..], c, status);
      }
    }
  }

  // ----- How a row is disturbed -----

  /** No request and no event on the rows: what processes and Valkey do by themselves. */
  ghost predicate Unprompted(acts: seq<Action>) {
    forall a :: a in acts ==> !a.Serve? && (a.Outside? ==> a.event.Push? || a.event.LoseList? || a.event.Valkey?)
  }

  lemma {:induction false} AsSequence(codes: set<Code>) returns (order: seq<Code>)
    ensures multiset(order) == multiset(codes)
  {
    if codes == {} {
      order := [];
    } else {
      var c :| c in codes;
      var rest := AsSequence(codes - {c});
      order := [c] + rest;
      assert multiset(codes) == multiset(codes - {c}) + multiset{c};
    }
  }

  /** A worker that runs or rejects `c` writes its outcome, whatever the row says by then. */
  lemma BusyOverwrites(s: State, c: Code) returns (acts: seq<Action>)
    requires c in s.jobs && Busy(s, c)
    ensures Unprompted(acts) && NobodyAsks(acts, c) && Count(Run(s, acts).starts, c) == Count(s.starts, c)
    ensures HasStatus(Run(s, acts), c, Completed) || HasStatus(Run(s, acts), c, Failed)
  {
    var p :| Holding(s, p, c);
    var task := if Hand(s, p) == Running(c) then Finish(true) else Reject;
    WorkRow(s, p, task, c);
    acts := [Work(p, task)];
    RunOne(s, Work(p, task));
  }

  /** A process that is started afresh has an idle worker; no row but that of a processing job changes. */
  lemma Restarted(s: State, p: Process, c: Code) returns (acts: seq<Action>)
    requires p < |s.servers| && c in s.jobs && s.jobs[c].status != Processing
    ensures Unprompted(acts) && NobodyAsks(acts, c)
    ensures var t := Run(s, acts);
            IsUp(t, p) && Hand(t, p) == Idle && Lookup(t.jobs, c) == Lookup(s.jobs, c) && t.starts == s.starts
  {
    var down := Step(s, Crash(p));
    var order := AsSequence(Recoverable(down));
    acts := [Crash(p)] + [Boot(p, order)];
    RunOne(s, Crash(p));
    RunLast(s, [Crash(p)], Boot(p, order));
    BootRow(down, p, order, c);
  }

  function OnlyToken(c: Code): seq<Action> {
    [Outside(Valkey(true))] + [Outside(LoseList)] + [Outside(Push(c))]
  }

  lemma OnlyTokenLeft(s: State, c: Code)
    ensures Run(s, OnlyToken(c)) == s.(valkey := true, list := [c])
  {
    RunOne(s, Outside(Valkey(true)));
    RunLast(s, [Outside(Valkey(true))], Outside(LoseList));
    RunLast(s, [Outside(Valkey(true))] + [Outside(LoseList)], Outside(Push(c)));
  }

  /** A token that is read finds a handler that cannot be loaded, and the row is failed. */
  lemma TokenFails(s: State, p: Process, c: Code) returns (acts: seq<Action>)
    requires IsUp(s, p) && Hand(s, p) == Idle && c in s.jobs && !s.jobs[c].runnable
    ensures Unprompted(acts) && NobodyAsks(acts, c) && HasStatus(Run(s, acts), c, Failed) && Run(s, acts).starts == s.starts
  {
    var start := OnlyToken(c);
    var s3 := s.(valkey := true, list := [c]);
    OnlyTokenLeft(s, c);
    var s4 := WorkStep(s3, p, PopList);
    var s5 := WorkStep(s4, p, LoadRow);
    var s6 := WorkStep(s5, p, Reject);
    assert Hand(s4, p) == Took(c) && s4.jobs == s.jobs && s4.starts == s.starts;
    assert Hand(s5, p) == Rejecting(c) && s5.jobs == s.jobs && s5.starts == s.starts;
    RunLast(s, start, Work(p, PopList));
    RunLast(s, start + [Work(p, PopList)], Work(p, LoadRow));
    RunLast(s, start + [Work(p, PopList)] + [Work(p, LoadRow)], Work(p, Reject));
    acts := start + [Work(p, PopList)] + [Work(p, LoadRow)] + [Work(p, Reject)];
  }

  /** Unless it is undisturbed, a row can be finished or failed without anybody asking, and without a start. */
  lemma Disturbed(s: State, c: Code) returns (acts: seq<Action>)
    requires s.servers != [] && c in s.jobs && s.jobs[c].status != Processing && (Busy(s, c) || !s.jobs[c].runnable)
    ensures Unprompted(acts) && NobodyAsks(acts, c) && Count(Run(s, acts).starts, c) == Count(s.starts, c)
    ensures HasStatus(Run(s, acts), c, Completed) || HasStatus(Run(s, acts), c, Failed)
  {
    if Busy(s, c) {
      acts := BusyOverwrites(s, c);
    } else {
      var restart := Restarted(s, 0, c);
      var fail := TokenFails(Run(s, restart), 0, c);
      acts := restart + fail;
      RunAppend(s, restart, fail);
    }
  }

  // ----- Cancellations and resubmissions -----

  ghost predicate StaysCancelled(s: State, c: Code) {
    forall acts: seq<Action> :: NobodyAsks(acts, c) ==> HasStatus(Run(s, acts), c, Cancelled)
  }

  /**
   Cancelled stays cancelled exactly when its handler can be loaded and no worker is running or rejecting the
   job at that moment: completion and failure are written without looking at the status.
   */
  lemma CancelledStaysIff(s: State, c: Code)
    requires HasStatus(s, c, Cancelled) && s.servers != []
    ensures StaysCancelled(s, c) <==> s.jobs[c].runnable && !Busy(s, c)
  {
    if s.jobs[c].runnable && !Busy(s, c) {
      forall acts: seq<Action> | NobodyAsks(acts, c)
        ensures HasStatus(Run(s, acts), c, Cancelled)
      {
        RunKeepsUndisturbed(s, acts, c, Cancelled);
      }
    } else {
      var acts := Disturbed(s, c);
      assert !HasStatus(Run(s, acts), c, Cancelled);
    }
  }

  ghost predicate NeverSwallowed(s: State, c: Code) {
    forall acts: seq<Action> :: NobodyAsks(acts, c) ==> HasStatus(Run(s, acts), c, Pending) || HasStarted(s, Run(s, acts), c)
  }

  /**
   A submission or resubmission is started or stays pending exactly when its handler can be loaded and no
   worker is running or rejecting the job at that moment; otherwise its row can end without a start.
   */
  lemma SubmissionKeptIff(s: State, c: Code)
    requires HasStatus(s, c, Pending) && s.servers != []
    ensures NeverSwallowed(s, c) <==> s.jobs[c].runnable && !Busy(s, c)
  {
    if s.jobs[c].runnable && !Busy(s, c) {
      forall acts: seq<Action> | NobodyAsks(acts, c)
        ensures HasStatus(Run(s, acts), c, Pending) || HasStarted(s, Run(s, acts), c)
      {
        RunKeepsUndisturbed(s, acts, c, Pending);
      }
    } else {
      var acts := Disturbed(s, c);
      assert !HasStatus(Run(s, acts), c, Pending) && !HasStarted(s, Run(s, acts), c);
    }
  }

  /** A job that is cancelled and resubmitted while its handler runs is pending and can be swallowed. */
  lemma ResubmissionSwallowed(s: State, p: Process, q: Process, c: Code)
    requires Runs(s, p, c) && HasStatus(s, c, Processing) && s.jobs[c].runnable && IsUp(s, q)
    ensures var t := Run(s, [Outside(Cancel(c)), Serve(q, ResubmitCheck(c, false)), Serve(q, ResubmitCommit(c))]);
            HasStatus(t, c, Pending) && !NeverSwallowed(t, c) && Count(t.enqueued, c) == Count(s.enqueued, c) + 1
  {
    var a0, a1, a2 := Outside(Cancel(c)), Serve(q, ResubmitCheck(c, false)), Serve(q, ResubmitCommit(c));
    var s1 := Step(s, a0);
    assert HasStatus(s1, c, Cancelled) && s1.servers == s.servers && s1.enqueued == s.enqueued;
    var s2 := Step(s1, a1);
    assert IsUp(s2, q) && c in s2.servers[q].checked && s2.jobs == s1.jobs && s2.enqueued == s.enqueued;
    var s3 := Step(s2, a2);
    assert HasStatus(s3, c, Pending);
    ServeElsewhere(s1, q, a1.request, p);
    ServeElsewhere(s2, q, a2.request, p);
    RunOne(s, a0);
    RunLast(s, [a0], a1);
    RunLast(s, [a0, a1], a2);
    assert [a0] + [a1] == [a0, a1] && [a0, a1] + [a2] == [a0, a1, a2];
    assert Holding(s3, p, c);
    SubmissionKeptIff(s3, c);
  }
}
