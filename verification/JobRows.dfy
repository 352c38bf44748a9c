/**
 The status column of the job queue: exactly which step writes which status, over runs too, and when a job
 that is over stays so although anybody may ask for its resubmission.
 */
module JobRows {
  import opened Text
  import opened JobQueue

  // ----- What writes which status -----

  /** A step brings the row of `c` to `status`, or takes it over in that status. */
  predicate Becomes(s: State, a: Action, c: Code, status: Status) {
    HasStatus(Step(s, a), c, status) && !HasStatus(s, c, status)
  }

  lemma ServeBecomes(s: State, p: Process, r: Request, c: Code, status: Status)
    requires status != Pending
    ensures !Becomes(s, Serve(p, r), c, status)
  {
    if IsUp(s, p) { ServeRow(s, p, r, c); }
  }

  lemma BootBecomes(s: State, p: Process, order: seq<Code>, c: Code, status: Status)
    ensures Becomes(s, Boot(p, order), c, status)
       <==> status == Pending && CanBoot(s, p, order) && HasStatus(s, c, Processing)
  {
    if CanBoot(s, p, order) { BootRow(s, p, order, c); }
  }

  lemma EventBecomes(s: State, e: Event, c: Code, status: Status)
    ensures Becomes(s, Outside(e), c, status)
       <==> (status == Cancelled && e == Cancel(c) && (HasStatus(s, c, Pending) || HasStatus(s, c, Processing)))
            || (status == Deleted && e == Delete(c) && c in s.jobs && s.jobs[c].status != Deleted)
  {
    EventRow(s, e, c);
  }

  lemma WorkBecomes(s: State, p: Process, task: Task, c: Code, status: Status)
    requires IsUp(s, p)
    ensures Becomes(s, Work(p, task), c, status)
       <==> c in s.jobs && s.jobs[c].status != status && Writes(s, p, task) == Some((c, status))
  {
    WorkRow(s, p, task, c);
  }

  lemma OnlyWork(s: State, a: Action, c: Code, status: Status)
    requires status != Pending && (a.Work? ==> !IsUp(s, a.p))
    ensures Becomes(s, a, c, status) ==> a.Outside? && (status == Cancelled || status == Deleted)
  {
    match a
    case Serve(p, r) => ServeBecomes(s, p, r, c, status);
    case Boot(p, order) => BootBecomes(s, p, order, c, status);
    case Outside(e) => EventBecomes(s, e, c, status);
    case Crash(_) =>
    case Work(_, _) =>
  }

  /** A job is completed exactly by a handler of it that returns, whatever the row says by then. */
  lemma CompletedIff(s: State, a: Action, c: Code)
    ensures Becomes(s, a, c, Completed)
       <==> c in s.jobs && s.jobs[c].status != Completed && a.Work? && a.task == Finish(true) && Runs(s, a.p, c)
  {
    if a.Work? && IsUp(s, a.p) {
      WorkBecomes(s, a.p, a.task, c, Completed);
    } else {
      OnlyWork(s, a, c, Completed);
    }
  }

  /** A job is failed exactly by a handler of it that raises, or by the worker that could not load its handler. */
  lemma FailedIff(s: State, a: Action, c: Code)
    ensures Becomes(s, a, c, Failed)
       <==> c in s.jobs && s.jobs[c].status != Failed && a.Work? && IsUp(s, a.p)
            && ((a.task == Finish(false) && Hand(s, a.p) == Running(c))
                || (a.task == Reject && Hand(s, a.p) == Rejecting(c)))
  {
    if a.Work? && IsUp(s, a.p) {
      WorkBecomes(s, a.p, a.task, c, Failed);
    } else {
      OnlyWork(s, a, c, Failed);
    }
  }

  /** A job is being processed exactly from the claim of a worker that finds it pending. */
  lemma ProcessingIff(s: State, a: Action, c: Code)
    ensures Becomes(s, a, c, Processing)
       <==> HasStatus(s, c, Pending) && a.Work? && a.task == Claim && IsUp(s, a.p) && Hand(s, a.p) == Ready(c)
  {
    if a.Work? && IsUp(s, a.p) {
      WorkBecomes(s, a.p, a.task, c, Processing);
    } else {
      OnlyWork(s, a, c, Processing);
    }
  }

  /** Only a request makes a job cancelled or deleted, and only a waiting or running job is cancelled. */
  lemma WithdrawnIff(s: State, a: Action, c: Code)
    ensures Becomes(s, a, c, Cancelled)
       <==> a == Outside(Cancel(c)) && (HasStatus(s, c, Pending) || HasStatus(s, c, Processing))
    ensures Becomes(s, a, c, Deleted) <==> a == Outside(Delete(c)) && c in s.jobs && s.jobs[c].status != Deleted
  {
    if a.Outside? {
      EventBecomes(s, a.event, c, Cancelled);
      EventBecomes(s, a.event, c, Deleted);
    } else if a.Work? && IsUp(s, a.p) {
      WorkBecomes(s, a.p, a.task, c, Cancelled);
      WorkBecomes(s, a.p, a.task, c, Deleted);
    } else {
      OnlyWork(s, a, c, Cancelled);
      OnlyWork(s, a, c, Deleted);
    }
  }

  lemma ServeEnqueues(s: State, p: Process, r: Request, c: Code)
    requires IsUp(s, p)
    ensures Becomes(s, Serve(p, r), c, Pending)
       <==> !HasStatus(s, c, Pending) && r.c == c
            && (r.Add? || (r.ResubmitCommit? && c in s.servers[p].checked && c in s.jobs))
  {
    match r
    case Add(_, _) =>
    case ResubmitCheck(_, _) =>
    case ResubmitCommit(d) => CommitRow(s, p, d, c);
    case PutToken(_) =>
  }

  /** A job becomes pending by a submission, by a resubmission that passed its check, or by recovery at a boot. */
  lemma PendingIff(s: State, a: Action, c: Code)
    ensures Becomes(s, a, c, Pending)
       <==> !HasStatus(s, c, Pending)
            && ((a.Serve? && IsUp(s, a.p) && a.request.Add? && a.request.c == c)
                || (a.Serve? && IsUp(s, a.p) && a.request == ResubmitCommit(c)
                    && c in s.servers[a.p].checked && c in s.jobs)
                || (a.Boot? && CanBoot(s, a.p, a.order) && HasStatus(s, c, Processing)))
  {
    match a
    case Serve(p, r) => if IsUp(s, p) { ServeEnqueues(s, p, r, c); }
    case Boot(p, order) => BootBecomes(s, p, order, c, Pending);
    case Work(p, task) => if IsUp(s, p) { WorkBecomes(s, p, task, c, Pending); }
    case Outside(e) => EventBecomes(s, e, c, Pending);
    case Crash(_) =>
  }

  /** Every job that a run completes had a handler that returned in that run. */
  lemma {:induction false} CompletedReturned(s: State, acts: seq<Action>, c: Code) returns (k: nat)
    requires HasStatus(Run(s, acts), c, Completed) && !HasStatus(s, c, Completed)
    ensures k < |acts| && acts[k].Work? && acts[k].task == Finish(true) && Runs(Run(s, acts[..k]), acts[k].p, c)
    decreases |acts|
  {
    var t := Step(s, acts[0]);
    if HasStatus(t, c, Completed) {
      CompletedIff(s, acts[0], c);
      k := 0;
      assert acts[..0] == [];
    } else {
      var j := CompletedReturned(t, acts[1..], c);
      k := j + 1;
      assert acts[..k][0] == acts[0] && acts[..k][1..] == acts[1..][..j];
    }
  }

  /** Every job that a run fails had a handler that raised, or that could not be loaded, in that run. */
  lemma {:induction false} FailedRaised(s: State, acts: seq<Action>, c: Code) returns (k: nat)
    requires HasStatus(Run(s, acts), c, Failed) && !HasStatus(s, c, Failed)
    ensures k < |acts| && acts[k].Work? && IsUp(Run(s, acts[..k]), acts[k].p)
    ensures (acts[k].task == Finish(false) && Hand(Run(s, acts[..k]), acts[k].p) == Running(c))
            || (acts[k].task == Reject && Hand(Run(s, acts[..k]), acts[k].p) == Rejecting(c))
    decreases |acts|
  {
    var t := Step(s, acts[0]);
    if HasStatus(t, c, Failed) {
      FailedIff(s, acts[0], c);
      k := 0;
      assert acts[..0] == [];
    } else {
      var j := FailedRaised(t, acts[1..], c);
      k := j + 1;
      assert acts[..k][0] == acts[0] && acts[..k][1..] == acts[1..][..j];
    }
  }

  // ----- Jobs that may not be resubmitted -----

  /** A request has passed the check for `c` and is still to commit. */
  ghost predicate Checked(s: State, c: Code) {
    exists p :: HoldsCheck(s, p, c)
  }

  predicate HoldsCheck(s: State, p: Process, c: Code) {
    IsUp(s, p) && c in s.servers[p].checked
  }

  /** A resubmission makes a job pending exactly when it had failed, was cancelled, or was completed and then edited. */
  lemma ResubmitIff(s: State, p: Process, c: Code, withCheckpoint: bool)
    requires IsUp(s, p) && c !in s.servers[p].checked && !HasStatus(s, c, Pending)
    ensures var t := Run(s, [Serve(p, ResubmitCheck(c, withCheckpoint))] + [Serve(p, ResubmitCommit(c))]);
            HasStatus(t, c, Pending)
            <==> HasStatus(s, c, Failed) || HasStatus(s, c, Cancelled)
                 || (HasStatus(s, c, Completed) && (withCheckpoint || s.jobs[c].edited))
  {
    var check, commit := Serve(p, ResubmitCheck(c, withCheckpoint)), Serve(p, ResubmitCommit(c));
    var t := Step(s, check);
    RunOne(s, check);
    RunLast(s, [check], commit);
    assert t.jobs == s.jobs && (c in t.servers[p].checked <==> MayResubmit(s, c, withCheckpoint));
    PendingIff(t, commit, c);
  }

  /** The actions that bring a deleted or completed job into another status: a submission, an edit, a deletion. */
  predicate Reopens(a: Action, c: Code) {
    match a
    case Serve(_, r) => r.c == c && (r.Add? || (r.ResubmitCheck? && r.withCheckpoint))
    case Outside(e) => e == MarkEdited(c) || e == Delete(c)
    case _ => false
  }

  ghost predicate NobodyReopens(acts: seq<Action>, c: Code) {
    forall a :: a in acts ==> !Reopens(a, c)
  }

  /** Deleted, or completed and not edited since. */
  predicate Over(row: Row) {
    row.status == Deleted || (row.status == Completed && !row.edited)
  }

  /** The job is over, and nobody is about to write its row. */
  ghost predicate Shut(s: State, c: Code) {
    (c in s.jobs ==> Over(s.jobs[c]) && s.jobs[c].runnable) && !Busy(s, c) && !Checked(s, c)
  }

  lemma ShutRow(s: State, a: Action, c: Code)
    requires Shut(s, c) && !Reopens(a, c)
    ensures var t := Step(s, a);
            c in t.jobs ==> c in s.jobs && Over(t.jobs[c]) && t.jobs[c].runnable && t.jobs[c].status == s.jobs[c].status
  {
    match a
    case Serve(p, r) =>
      if IsUp(s, p) {
        assert !HoldsCheck(s, p, c);
        ServeRow(s, p, r, c);
      }
    case Work(p, task) =>
      if IsUp(s, p) {
        WorkRow(s, p, task, c);
        if Writes(s, p, task).Some? { WritesHand(s, p, task); }
        assert !Holding(s, p, c);
      }
    case Outside(e) => ShutEvent(s, e, c);
    case Boot(p, order) => if CanBoot(s, p, order) { BootRow(s, p, order, c); }
    case Crash(_) =>
  }

  lemma ShutEvent(s: State, e: Event, c: Code)
    requires (c in s.jobs ==> Over(s.jobs[c])) && e != MarkEdited(c) && e != Delete(c)
    ensures c in EventStep(s, e).jobs ==> c in s.jobs && EventStep(s, e).jobs[c] == s.jobs[c]
  {
  }

  lemma ShutHands(s: State, a: Action, c: Code, p: Process)
    requires Shut(s, c) && !Reopens(a, c)
    ensures !Holding(Step(s, a), p, c)
  {
    assert !Holding(s, p, c);
    if Actor(a) != Some(p) {
      OthersUntouched(s, a, p);
    } else if IsUp(s, p) && a.Serve? {
      ServeElsewhere(s, p, a.request, p);
    }
  }

  lemma ShutChecks(s: State, a: Action, c: Code, p: Process)
    requires Shut(s, c) && !Reopens(a, c)
    ensures !HoldsCheck(Step(s, a), p, c)
  {
    assert !HoldsCheck(s, p, c);
    if Actor(a) != Some(p) {
      OthersUntouched(s, a, p);
    } else if IsUp(s, p) && a.Serve? {
      ServeChecks(s, p, a.request, c);
    }
  }

  lemma ServeChecks(s: State, p: Process, r: Request, c: Code)
    requires IsUp(s, p) && c !in s.servers[p].checked
    ensures c in ServeStep(s, p, r).servers[p].checked
            ==> r.ResubmitCheck? && r.c == c && MayResubmit(s, c, r.withCheckpoint)
  {
    match r
    case Add(_, _) =>
    case ResubmitCheck(_, _) =>
    case ResubmitCommit(_) =>
    case PutToken(_) =>
  }

  lemma {:induction false} RunStaysShut(s: State, acts: seq<Action>, c: Code)
    requires Shut(s, c) && NobodyReopens(acts, c)
    ensures var t := Run(s, acts); c in t.jobs ==> c in s.jobs && t.jobs[c].status == s.jobs[c].status
    decreases |acts|
  {
    if acts != [] {
      var t := Step(s, acts[0]);
      assert acts[0] in acts;
      ShutRow(s, acts[0], c);
      forall p
        ensures !Holding(t, p, c) && !HoldsCheck(t, p, c)
      {
        ShutHands(s, acts[0], c, p);
        ShutChecks(s, acts[0], c, p);
      }
      RunStaysShut(t, acts[1..], c);
    }
  }

  /** A run after which the row of `c`, which stood at `status`, stands at another one. */
  ghost predicate LeavesStatus(s: State, acts: seq<Action>, c: Code, status: Status) {
    NobodyReopens(acts, c) && c in Run(s, acts).jobs && Run(s, acts).jobs[c].status != status
  }

  lemma BusyReopens(s: State, c: Code) returns (acts: seq<Action>)
    requires c in s.jobs && Busy(s, c)
    ensures LeavesStatus(s, acts, c, Completed) && LeavesStatus(s, acts, c, Deleted)
  {
    var p :| Holding(s, p, c);
    var task := if Hand(s, p) == Running(c) then Finish(false) else Reject;
    WorkRow(s, p, task, c);
    acts := [Work(p, task)];
    RunOne(s, Work(p, task));
  }

  lemma CheckReopens(s: State, c: Code) returns (acts: seq<Action>)
    requires c in s.jobs && s.jobs[c].status != Pending && Checked(s, c)
    ensures LeavesStatus(s, acts, c, Completed) && LeavesStatus(s, acts, c, Deleted)
  {
    var p :| HoldsCheck(s, p, c);
    acts := [Serve(p, ResubmitCommit(c))];
    RunOne(s, acts[0]);
    PendingIff(s, acts[0], c);
  }

  lemma UnloadableReopens(s: State, c: Code) returns (acts: seq<Action>)
    requires s.servers != [] && c in s.jobs && s.jobs[c].status != Processing && !s.jobs[c].runnable
    ensures LeavesStatus(s, acts, c, Completed) && LeavesStatus(s, acts, c, Deleted)
  {
    var restart := Restarted(s, 0, c);
    var fail := TokenFails(Run(s, restart), 0, c);
    acts := restart + fail;
    RunAppend(s, restart, fail);
  }

  lemma EditReopens(s: State, c: Code) returns (acts: seq<Action>)
    requires s.servers != [] && HasStatus(s, c, Completed) && s.jobs[c].edited
    ensures LeavesStatus(s, acts, c, Completed)
  {
    var restart := Restarted(s, 0, c);
    var t := Run(s, restart);
    var resubmit := [Serve(0, ResubmitCheck(c, false))] + [Serve(0, ResubmitCommit(c))];
    if c in t.servers[0].checked {
      assert HoldsCheck(t, 0, c);
      acts := CheckReopens(t, c);
    } else {
      ResubmitIff(t, 0, c, false);
      acts := resubmit;
    }
    RunAppend(s, restart, acts);
    acts := restart + acts;
  }

  ghost predicate StaysOver(s: State, c: Code)
    requires c in s.jobs
  {
    forall acts: seq<Action> ::
      NobodyReopens(acts, c) && c in Run(s, acts).jobs ==> Run(s, acts).jobs[c].status == s.jobs[c].status
  }

  /**
   A deleted job stays deleted until its row goes, and a completed one completed, exactly when it is not
   marked as edited, its handler can be loaded, and at that moment no worker is running or rejecting it and no
   request has passed the check for it.
   */
  lemma OverStaysIff(s: State, c: Code)
    requires s.servers != [] && (HasStatus(s, c, Deleted) || HasStatus(s, c, Completed))
    ensures StaysOver(s, c)
       <==> (s.jobs[c].status == Completed ==> !s.jobs[c].edited) && s.jobs[c].runnable && !Busy(s, c) && !Checked(s, c)
  {
    if Shut(s, c) {
      forall acts: seq<Action> | NobodyReopens(acts, c) && c in Run(s, acts).jobs
        ensures Run(s, acts).jobs[c].status == s.jobs[c].status
      {
        RunStaysShut(s, acts, c);
      }
    } else {
      var acts;
      if Busy(s, c) {
        acts := BusyReopens(s, c);
      } else if Checked(s, c) {
        acts := CheckReopens(s, c);
      } else if !s.jobs[c].runnable {
        acts := UnloadableReopens(s, c);
      } else {
        acts := EditReopens(s, c);
      }
      assert LeavesStatus(s, acts, c, s.jobs[c].status);
    }
  }

  // ----- The other columns, and the order of the queues -----

  /** A job is marked as edited only by an edit, and a submission or a committed resubmission clears the mark. */
  lemma EditedIff(s: State, a: Action, c: Code)
    requires c in Step(s, a).jobs
    ensures Step(s, a).jobs[c].edited
       <==> c in s.jobs && (a == Outside(MarkEdited(c)) || (s.jobs[c].edited && !Submits(s, a, c)))
  {
    match a
    case Serve(p, r) => if IsUp(s, p) { ServeEdited(s, p, r, c); }
    case Work(p, task) => if IsUp(s, p) { WorkRow(s, p, task, c); }
    case Boot(p, order) => if CanBoot(s, p, order) { BootRow(s, p, order, c); }
    case Outside(e) => EventEdited(s, e, c);
    case Crash(_) =>
  }

  lemma EventEdited(s: State, e: Event, c: Code)
    ensures c in EventStep(s, e).jobs ==>
              c in s.jobs && (EventStep(s, e).jobs[c].edited <==> e == MarkEdited(c) || s.jobs[c].edited)
    ensures c in s.jobs && c !in EventStep(s, e).jobs <==> e == ClearDeleted && HasStatus(s, c, Deleted)
  {
    match e
    case MarkEdited(_) =>
    case ClearDeleted =>
    case _ =>
  }

  /** A request submits `c`, or commits its resubmission. */
  predicate Submits(s: State, a: Action, c: Code) {
    a.Serve? && IsUp(s, a.p) && a.request.c == c
    && (a.request.Add? || (a.request.ResubmitCommit? && c in s.servers[a.p].checked && c in s.jobs))
  }

  lemma ServeEdited(s: State, p: Process, r: Request, c: Code)
    requires IsUp(s, p) && c in ServeStep(s, p, r).jobs
    ensures ServeStep(s, p, r).jobs[c].edited <==> c in s.jobs && s.jobs[c].edited && !Submits(s, Serve(p, r), c)
  {
    match r
    case Add(_, _) =>
    case ResubmitCheck(_, _) =>
    case ResubmitCommit(_) =>
    case PutToken(_) =>
  }

  /** Whether a handler can be loaded is settled by the last submission. */
  lemma HandlerIs(s: State, a: Action, c: Code)
    requires c in Step(s, a).jobs
    ensures a.Serve? && IsUp(s, a.p) && a.request.Add? && a.request.c == c
            ==> Step(s, a).jobs[c].runnable == a.request.runnable
    ensures !(a.Serve? && IsUp(s, a.p) && a.request.Add? && a.request.c == c)
            ==> c in s.jobs && Step(s, a).jobs[c].runnable == s.jobs[c].runnable
  {
    match a
    case Serve(p, r) => if IsUp(s, p) { ServeHandler(s, p, r, c); }
    case Work(p, task) => if IsUp(s, p) { WorkRow(s, p, task, c); }
    case Boot(p, order) => if CanBoot(s, p, order) { BootRow(s, p, order, c); }
    case Outside(e) => EventRow(s, e, c);
    case Crash(_) =>
  }

  lemma ServeHandler(s: State, p: Process, r: Request, c: Code)
    requires IsUp(s, p) && c in ServeStep(s, p, r).jobs
    ensures if r.Add? && r.c == c then ServeStep(s, p, r).jobs[c].runnable == r.runnable
            else c in s.jobs && ServeStep(s, p, r).jobs[c].runnable == s.jobs[c].runnable
  {
    match r
    case Add(_, _) =>
    case ResubmitCheck(_, _) =>
    case ResubmitCommit(_) =>
    case PutToken(_) =>
  }

  function One(b: bool): nat { if b then 1 else 0 }

  lemma CommitCounts(s: State, p: Process, d: Code, c: Code)
    requires IsUp(s, p) && d in s.servers[p].checked
    ensures var was, now := s.servers[p], CommitStep(s, p, d).servers[p];
            && now.Up? && now.checked[c] + One(c == d) == was.checked[c]
            && now.submitting[c] == was.submitting[c] + One(c == d)
  {
  }

  lemma AddCounts(s: State, p: Process, d: Code, runnable: bool, c: Code)
    requires IsUp(s, p)
    ensures var was, now := s.servers[p], AddStep(s, p, d, runnable).servers[p];
            now.Up? && now.checked == was.checked && now.submitting[c] == was.submitting[c] + One(c == d)
  {
  }

  lemma PutCounts(s: State, p: Process, d: Code, c: Code)
    requires IsUp(s, p) && d in s.servers[p].submitting
    ensures var was, now := s.servers[p], PutStep(s, p, d).servers[p];
            now.Up? && now.checked == was.checked && now.submitting[c] + One(c == d) == was.submitting[c]
  {
  }

  /** A passed check serves one commit, and each submission and each committed resubmission puts one token. */
  lemma RequestsAre(s: State, p: Process, r: Request, c: Code)
    requires IsUp(s, p)
    ensures IsUp(ServeStep(s, p, r), p)
    ensures ServeStep(s, p, r).servers[p].checked[c] + One(r == ResubmitCommit(c) && c in s.servers[p].checked)
         == s.servers[p].checked[c] + One(r.ResubmitCheck? && r.c == c && MayResubmit(s, c, r.withCheckpoint))
    ensures ServeStep(s, p, r).servers[p].submitting[c] + One(r == PutToken(c) && c in s.servers[p].submitting)
         == s.servers[p].submitting[c]
            + One((r.Add? && r.c == c) || (r == ResubmitCommit(c) && c in s.servers[p].checked))
  {
    match r
    case Add(d, runnable) => AddCounts(s, p, d, runnable, c);
    case ResubmitCheck(_, _) =>
    case ResubmitCommit(d) => if d in s.servers[p].checked { CommitCounts(s, p, d, c); }
    case PutToken(d) => if d in s.servers[p].submitting { PutCounts(s, p, d, c); }
  }

  /** A row goes exactly when deleted rows are cleared and it is one; a row comes only by a submission. */
  lemma RowsIff(s: State, a: Action, c: Code)
    ensures c in s.jobs && c !in Step(s, a).jobs <==> a == Outside(ClearDeleted) && HasStatus(s, c, Deleted)
    ensures c !in s.jobs && c in Step(s, a).jobs
       <==> c !in s.jobs && a.Serve? && IsUp(s, a.p) && a.request.Add? && a.request.c == c
  {
    match a
    case Serve(p, r) => if IsUp(s, p) { ServeRows(s, p, r, c); }
    case Work(p, task) => if IsUp(s, p) { WorkRow(s, p, task, c); }
    case Boot(p, order) => if CanBoot(s, p, order) { BootRow(s, p, order, c); }
    case Outside(e) => EventEdited(s, e, c);
    case Crash(_) =>
  }

  lemma ServeRows(s: State, p: Process, r: Request, c: Code)
    requires IsUp(s, p)
    ensures c in ServeStep(s, p, r).jobs <==> c in s.jobs || (r.Add? && r.c == c)
  {
    match r
    case Add(_, _) =>
    case ResubmitCheck(_, _) =>
    case ResubmitCommit(_) =>
    case PutToken(_) =>
  }

  /**
   An idle worker takes the first code of the Valkey list, or, only when that is empty or out of reach, the first
   of its own queue; nobody else takes anything from either.
   */
  lemma TakesFirst(s: State, a: Action, p: Process)
    requires IsUp(s, p) && IsUp(Step(s, a), p)
    ensures var was, now := s.servers[p], Step(s, a).servers[p];
            && (now.memory == was.memory
                || (a.Serve? && a.p == p && a.request.PutToken? && now.memory == was.memory + [a.request.c])
                || (a == Work(p, PopMemory) && was.worker == Idle && (s.list == [] || !s.valkey)
                    && was.memory != [] && now.memory == was.memory[1..] && now.worker == Took(was.memory[0])))
            && (Step(s, a).list == s.list
                || a == Outside(LoseList) || (a.Outside? && a.event.Push? && Step(s, a).list == s.list + [a.event.c])
                || (a.Work? && a.task == PopList && IsUp(s, a.p) && Hand(s, a.p) == Idle && s.valkey && s.list != []
                    && Step(s, a).list == s.list[1..] && Hand(Step(s, a), a.p) == Took(s.list[0])))
  {
    match a
    case Serve(q, r) => if IsUp(s, q) { ServeQueues(s, q, r, p); }
    case Work(q, task) => if IsUp(s, q) { WorkQueues(s, q, task, p); }
    case Boot(_, _) =>
    case Outside(_) =>
    case Crash(_) =>
  }

  lemma WorkQueues(s: State, q: Process, task: Task, p: Process)
    requires IsUp(s, q) && IsUp(s, p)
    ensures var t := WorkStep(s, q, task);
            && IsUp(t, p) && IsUp(t, q)
            && (t.servers[p].memory == s.servers[p].memory
                || (q == p && task == PopMemory && Hand(s, p) == Idle && (s.list == [] || !s.valkey)
                    && s.servers[p].memory != [] && t.servers[p].memory == s.servers[p].memory[1..]
                    && Hand(t, p) == Took(s.servers[p].memory[0])))
            && (t.list == s.list
                || (task == PopList && Hand(s, q) == Idle && s.valkey && s.list != [] && t.list == s.list[1..]
                    && Hand(t, q) == Took(s.list[0])))
  {
  }

  lemma ServeQueues(s: State, q: Process, r: Request, p: Process)
    requires IsUp(s, q) && IsUp(s, p)
    ensures var t := ServeStep(s, q, r);
            && t.list == s.list && IsUp(t, p)
            && (t.servers[p].memory == s.servers[p].memory
                || (q == p && r.PutToken? && t.servers[p].memory == s.servers[p].memory + [r.c]))
  {
    match r
    case Add(_, _) =>
    case ResubmitCheck(_, _) =>
    case ResubmitCommit(_) =>
    case PutToken(_) =>
  }
}
