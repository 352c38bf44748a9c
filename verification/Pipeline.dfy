/**
 The checkpointed pipeline: steps that are skipped when marked and otherwise write an artifact and then
 mark themselves, crashes between any two of those actions, and edits that invalidate later steps.
 The checkpoint column is modelled as the list of its comma-separated parts, the files of one step as
 one artifact, and what a step produces as a function of the artifacts of the steps before it.
 */
module Pipeline {
  import opened Text
  import opened Sequences

  type Step = string

  /** CHECKPOINT_ORDER. */
  const ORDER: seq<Step> := ["download", "decompress", "trim", "extract_audio", "whisper",
                             "ocr", "translate", "audio", "video"]

  /** The steps whose files are deleted when they are to run again. */
  const PURGED: seq<Step> := ["translate", "audio", "video"]

  /** The steps of `run_ocr_full_pipeline`. */
  const FULL: seq<Step> := ["ocr", "translate", "audio", "video"]

  /**
   A pipeline: the canonical order of all steps, its own steps, the steps its `CheckpointHelper` accepts,
   what each step makes of the artifacts before it, and what the end of every run makes of all of them:
   the copied SRT and the adjusted original track.
   */
  datatype Plan<!D> = Plan(order: seq<Step>, steps: seq<Step>, valid: Option<seq<Step>>,
                           make: (Step, seq<Option<D>>) -> D, finish: seq<Option<D>> -> D)

  /** The checkpoint parts in the database, the artifact of each step, and the output of the run's end. */
  datatype Disk<D> = Disk(parts: seq<string>, files: map<Step, D>, extra: Option<D>)

  // ----- Checkpoints -----

  /** Where a step stands in the canonical order, or its length. */
  function Position(step: Step, order: seq<Step>): (i: nat)
    ensures i <= |order| && (i < |order| ==> order[i] == step)
    ensures i == |order| <==> step !in order
  {
    if order == [] then 0 else if order[0] == step then 0 else 1 + Position(step, order[1..])
  }

  /** The steps that run again after `step` was edited. */
  function Later(order: seq<Step>, step: Step): seq<Step> {
    if step in order then order[Position(step, order) + 1..] else []
  }

  function Dropped(parts: seq<string>, drop: seq<string>): (r: seq<string>)
    ensures forall p :: p in r <==> p in parts && p !in drop
  {
    if parts == [] then []
    else (if parts[0] in drop then [] else [parts[0]]) + Dropped(parts[1..], drop)
  }

  predicate Done<D>(plan: Plan<D>, d: Disk<D>, step: Step) {
    (plan.valid.Some? ==> step in plan.valid.value) && step in d.parts
  }

  function Marked<D>(d: Disk<D>, step: Step): Disk<D> {
    d.(parts := Dropped(d.parts, [""]) + [step])
  }

  function Kept(order: seq<Step>, parts: seq<string>, step: Step): seq<string> {
    Dropped(parts, if step in order then Later(order, step) else [step])
  }

  function Purge<D>(files: map<Step, D>, steps: seq<Step>): map<Step, D> {
    map s | s in files && !(s in steps && s in PURGED) :: files[s]
  }

  function InvalidatedAfter<D>(order: seq<Step>, d: Disk<D>, step: Step): Disk<D> {
    d.(parts := Kept(order, d.parts, step), files := Purge(d.files, Later(order, step)))
  }

  // ----- Runs -----

  function File<D>(d: Disk<D>, step: Step): Option<D> {
    Lookup(d.files, step)
  }

  /** The artifacts of the first `k` steps. */
  function Inputs<D>(plan: Plan<D>, d: Disk<D>, k: nat): (r: seq<Option<D>>)
    requires k <= |plan.steps|
    ensures |r| == k && forall i :: 0 <= i < k ==> r[i] == File(d, plan.steps[i])
  {
    if k == 0 then [] else Inputs(plan, d, k - 1) + [File(d, plan.steps[k - 1])]
  }

  function Written<D>(plan: Plan<D>, d: Disk<D>, k: nat): Disk<D>
    requires k < |plan.steps|
  {
    d.(files := d.files[plan.steps[k] := plan.make(plan.steps[k], Inputs(plan, d, k))])
  }

  function StepRun<D>(plan: Plan<D>, d: Disk<D>, k: nat): Disk<D>
    requires k < |plan.steps|
  {
    if Done(plan, d, plan.steps[k]) then d else Marked(Written(plan, d, k), plan.steps[k])
  }

  /** The first `k` steps of a run. */
  function RunTo<D>(plan: Plan<D>, d: Disk<D>, k: nat): Disk<D>
    requires k <= |plan.steps|
  {
    if k == 0 then d else StepRun(plan, RunTo(plan, d, k - 1), k - 1)
  }

  function RunAll<D>(plan: Plan<D>, d: Disk<D>): Disk<D> {
    var t := RunTo(plan, d, |plan.steps|);
    t.(extra := Some(plan.finish(Inputs(plan, t, |plan.steps|))))
  }

  /**
   What happens to a job between its submission and its last run. A crash strikes before the step `k`
   begins, while it writes, leaving any file or none, after it has written and before it is marked, or
   at the run's end. Edits and deletions by the user happen between runs.
   */
  datatype Event<D> =
    | CrashBefore(k: nat)
    | CrashWriting(k: nat, left: Option<D>)
    | CrashUnmarked(k: nat)
    | CrashFinishing(leftover: Option<D>)
    | Completes
    | Edits(step: Step, content: D)
    | EditsCopy(content: D)
    | Deletes(step: Step)

  function CutShort<D>(plan: Plan<D>, d: Disk<D>, k: nat, left: Option<D>): Disk<D>
    requires k < |plan.steps|
  {
    var t := RunTo(plan, d, k);
    if Done(plan, t, plan.steps[k]) then t
    else if left.Some? then t.(files := t.files[plan.steps[k] := left.value])
    else t.(files := t.files - {plan.steps[k]})
  }

  function Unmarked<D>(plan: Plan<D>, d: Disk<D>, k: nat): Disk<D>
    requires k < |plan.steps|
  {
    var t := RunTo(plan, d, k);
    if Done(plan, t, plan.steps[k]) then t else Written(plan, t, k)
  }

  /** `save-srt`: only an existing file can be saved, and then the steps after it are invalidated. */
  function Edited<D>(plan: Plan<D>, d: Disk<D>, step: Step, content: D): Disk<D> {
    if step in d.files then InvalidatedAfter(plan.order, d.(files := d.files[step := content]), step) else d
  }

  /** Saving the copy in the output directory: its name is that of the audio step's file. */
  function CopyEdited<D>(plan: Plan<D>, d: Disk<D>, content: D): Disk<D> {
    if d.extra.Some? then InvalidatedAfter(plan.order, d.(extra := Some(content)), "audio") else d
  }

  /** `files/delete`: the step of the deleted file is cleared, and no other. */
  function FileDeleted<D>(d: Disk<D>, step: Step): Disk<D> {
    if step in d.files then d.(files := d.files - {step}, parts := Dropped(d.parts, [step])) else d
  }

  function Happen<D>(plan: Plan<D>, d: Disk<D>, e: Event<D>): Disk<D> {
    match e
    case CrashBefore(k) => if k <= |plan.steps| then RunTo(plan, d, k) else d
    case CrashWriting(k, left) => if k < |plan.steps| then CutShort(plan, d, k, left) else d
    case CrashUnmarked(k) => if k < |plan.steps| then Unmarked(plan, d, k) else d
    case CrashFinishing(leftover) => RunTo(plan, d, |plan.steps|).(extra := leftover)
    case Completes => RunAll(plan, d)
    case Edits(step, content) => Edited(plan, d, step, content)
    case EditsCopy(content) => CopyEdited(plan, d, content)
    case Deletes(step) => FileDeleted(d, step)
  }

  function History<D>(plan: Plan<D>, d: Disk<D>, events: seq<Event<D>>): Disk<D>
    decreases |events|
  {
    if events == [] then d else History(plan, Happen(plan, d, events[0]), events[1..])
  }

  // ----- The reference: one run from scratch, with the user's edits standing in for their steps -----

  /** The artifacts of the first `k` steps when each step in `pins` yields the pinned content instead. */
  function Expected<D>(plan: Plan<D>, pins: map<Step, D>, k: nat): (r: seq<Option<D>>)
    requires k <= |plan.steps|
    ensures |r| == k
  {
    if k == 0 then []
    else
      var before := Expected(plan, pins, k - 1);
      var step := plan.steps[k - 1];
      before + [Some(if step in pins then pins[step] else plan.make(step, before))]
  }

  /** Deleting an edited file undoes the edit, but later artifacts made from it stand until they are voided. */
  function Frozen<D>(plan: Plan<D>, d: Disk<D>, pins: map<Step, D>, step: Step): map<Step, D> {
    map s | s in pins.Keys + d.files.Keys && s != step
            && (s in pins || (s in plan.steps && s in Later(plan.order, step) && Done(plan, d, s)))
      :: if s in pins then pins[s] else d.files[s]
  }

  /** Which contents stand after an event: an edit's, until an edit of an earlier step voids it. */
  function Pins<D>(plan: Plan<D>, d: Disk<D>, pins: map<Step, D>, e: Event<D>): map<Step, D> {
    match e
    case Edits(step, content) =>
      if step !in d.files then pins
      else
        var kept := map s | s in pins && s !in Later(plan.order, step) :: pins[s];
        if step in plan.steps && Done(plan, d, step) then kept[step := content] else kept
    case EditsCopy(_) =>
      if d.extra.Some? then map s | s in pins && s !in Later(plan.order, "audio") :: pins[s] else pins
    case Deletes(step) => if step in d.files && step in pins then Frozen(plan, d, pins, step) else pins
    case _ => pins
  }

  function PinsAfter<D>(plan: Plan<D>, d: Disk<D>, pins: map<Step, D>, events: seq<Event<D>>): map<Step, D>
    decreases |events|
  {
    if events == [] then pins
    else PinsAfter(plan, Happen(plan, d, events[0]), Pins(plan, d, pins, events[0]), events[1..])
  }

  predicate Accepts<D>(plan: Plan<D>, step: Step) {
    step != "" && (plan.valid.Some? ==> step in plan.valid.value)
  }

  /** The steps are taken from `order` and stand in it. */
  predicate Ascends(steps: seq<Step>, order: seq<Step>) {
    |steps| == 0
    || (Position(steps[|steps| - 1], order) < |order|
        && (|steps| == 1 || Position(steps[|steps| - 2], order) < Position(steps[|steps| - 1], order))
        && Ascends(steps[..|steps| - 1], order))
  }

  predicate AcceptsAll<D>(plan: Plan<D>, k: nat)
    requires k <= |plan.steps|
  {
    k == 0 || (Accepts(plan, plan.steps[k - 1]) && AcceptsAll(plan, k - 1))
  }

  /** The steps stand in the canonical order and the helper accepts them all. */
  ghost predicate WellFormed<D>(plan: Plan<D>) {
    Ascends(plan.steps, plan.order) && AcceptsAll(plan, |plan.steps|) && Distinct(plan.order)
  }

  /** If step `k` is marked, it has the artifact of the reference run. */
  ghost predicate Right<D>(plan: Plan<D>, d: Disk<D>, pins: map<Step, D>, k: nat)
    requires k < |plan.steps|
  {
    Done(plan, d, plan.steps[k]) ==> File(d, plan.steps[k]) == Expected(plan, pins, k + 1)[k]
  }

  /** All marked steps have the artifact of the reference run, and only marked steps are pinned. */
  ghost predicate Consistent<D>(plan: Plan<D>, d: Disk<D>, pins: map<Step, D>) {
    (forall k: nat :: k < |plan.steps| ==> Right(plan, d, pins, k))
    && (forall s :: s in pins ==> s in plan.steps && Done(plan, d, s))
  }

  lemma {:induction false} Ascending(steps: seq<Step>, order: seq<Step>, i: nat, j: nat)
    requires Ascends(steps, order) && i <= j < |steps|
    ensures Position(steps[i], order) <= Position(steps[j], order) < |order|
    ensures i < j ==> Position(steps[i], order) < Position(steps[j], order)
  {
    if j < |steps| - 1 {
      Ascending(steps[..|steps| - 1], order, i, j);
    } else if i < j {
      Ascending(steps[..|steps| - 1], order, i, j - 1);
    }
  }

  lemma {:induction false} Accepted<D>(plan: Plan<D>, k: nat, i: nat)
    requires k <= |plan.steps| && AcceptsAll(plan, k) && i < k
    ensures Accepts(plan, plan.steps[i])
  {
    if i < k - 1 { Accepted(plan, k - 1, i); }
  }

  lemma StepsDistinct<D>(plan: Plan<D>, i: nat, j: nat)
    requires WellFormed(plan) && i < |plan.steps| && j < |plan.steps|
    ensures plan.steps[i] == plan.steps[j] <==> i == j
  {
    Ascending(plan.steps, plan.order, if i < j then i else j, if i < j then j else i);
  }

  /** The artifacts of the first `k` steps do not depend on how far the reference run goes. */
  lemma {:induction false} ExpectedPrefix<D>(plan: Plan<D>, pins: map<Step, D>, k: nat, m: nat)
    requires k <= m <= |plan.steps|
    ensures Expected(plan, pins, m)[..k] == Expected(plan, pins, k)
  {
    if k < m {
      ExpectedPrefix(plan, pins, k, m - 1);
      assert Expected(plan, pins, m)[..k] == Expected(plan, pins, m - 1)[..k];
    }
  }

  /** ... nor on pins of other steps. */
  lemma {:induction false} ExpectedAgrees<D>(plan: Plan<D>, pins: map<Step, D>, other: map<Step, D>, k: nat)
    requires k <= |plan.steps|
    requires forall i :: 0 <= i < k ==> Lookup(pins, plan.steps[i]) == Lookup(other, plan.steps[i])
    ensures Expected(plan, pins, k) == Expected(plan, other, k)
  {
    if k > 0 {
      ExpectedAgrees(plan, pins, other, k - 1);
      assert Lookup(pins, plan.steps[k - 1]) == Lookup(other, plan.steps[k - 1]);
    }
  }

  /** The first `k` steps are marked. */
  ghost predicate DoneTo<D>(plan: Plan<D>, d: Disk<D>, k: nat)
    requires k <= |plan.steps|
  {
    forall i :: 0 <= i < k ==> Done(plan, d, plan.steps[i])
  }

  lemma {:induction false} InputsAreExpected<D>(plan: Plan<D>, d: Disk<D>, pins: map<Step, D>, k: nat)
    requires Consistent(plan, d, pins) && k <= |plan.steps| && DoneTo(plan, d, k)
    ensures Inputs(plan, d, k) == Expected(plan, pins, k)
  {
    if k > 0 {
      InputsAreExpected(plan, d, pins, k - 1);
      assert Done(plan, d, plan.steps[k - 1]) && Right(plan, d, pins, k - 1);
    }
  }

  lemma MarkedIsDone<D>(plan: Plan<D>, d: Disk<D>, step: Step, s: Step)
    requires Accepts(plan, step) && s != ""
    ensures Done(plan, Marked(d, step), s) <==> Done(plan, d, s) || s == step
  {
  }

  /** Marking step `k` is right once its artifact is. */
  lemma MarkingKeeps<D>(plan: Plan<D>, d: Disk<D>, pins: map<Step, D>, k: nat)
    requires Consistent(plan, d, pins) && k < |plan.steps| && DoneTo(plan, d, k)
    requires forall i :: 0 <= i < |plan.steps| ==> Accepts(plan, plan.steps[i])
    requires File(d, plan.steps[k]) == Expected(plan, pins, k + 1)[k]
    requires forall i :: 0 <= i < |plan.steps| && plan.steps[i] == plan.steps[k] ==> i == k
    ensures Consistent(plan, Marked(d, plan.steps[k]), pins)
    ensures DoneTo(plan, Marked(d, plan.steps[k]), k + 1)
  {
    var t := Marked(d, plan.steps[k]);
    forall i | 0 <= i < |plan.steps|
      ensures Done(plan, t, plan.steps[i]) <==> Done(plan, d, plan.steps[i]) || i == k
    {
      MarkedIsDone(plan, d, plan.steps[k], plan.steps[i]);
    }
    forall i: nat | i < |plan.steps|
      ensures Right(plan, t, pins, i)
    {
      assert Right(plan, d, pins, i);
    }
    forall s | s in pins
      ensures s in plan.steps && Done(plan, t, s)
    {
      assert Done(plan, d, s);
      MarkedIsDone(plan, d, plan.steps[k], s);
    }
  }

  /** Writing or removing a file that no marked step owns keeps what the marked steps promise. */
  lemma UnmarkedWriteKeeps<D>(plan: Plan<D>, d: Disk<D>, t: Disk<D>, pins: map<Step, D>, step: Step)
    requires Consistent(plan, d, pins)
    requires !(step in plan.steps && Done(plan, d, step))
    requires t.parts == d.parts
    requires forall s :: s != step ==> Lookup(t.files, s) == Lookup(d.files, s)
    ensures Consistent(plan, t, pins)
  {
    forall i: nat | i < |plan.steps|
      ensures Right(plan, t, pins, i)
    {
      assert Right(plan, d, pins, i);
    }
    forall s | s in pins
      ensures Done(plan, t, s)
    {
      assert Done(plan, d, s);
    }
  }

  lemma StepRunKeeps<D>(plan: Plan<D>, d: Disk<D>, pins: map<Step, D>, k: nat)
    requires WellFormed(plan) && Consistent(plan, d, pins) && k < |plan.steps| && DoneTo(plan, d, k)
    ensures Consistent(plan, StepRun(plan, d, k), pins) && DoneTo(plan, StepRun(plan, d, k), k + 1)
  {
    if !Done(plan, d, plan.steps[k]) {
      var w := Written(plan, d, k);
      UnmarkedWriteKeeps(plan, d, w, pins, plan.steps[k]);
      InputsAreExpected(plan, d, pins, k);
      assert plan.steps[k] !in pins;
      assert DoneTo(plan, w, k) by {
        assert forall i :: 0 <= i < k && Done(plan, d, plan.steps[i]) ==> Done(plan, w, plan.steps[i]);
      }
      forall i | 0 <= i < |plan.steps|
        ensures Accepts(plan, plan.steps[i]) && (plan.steps[i] == plan.steps[k] ==> i == k)
      {
        Accepted(plan, |plan.steps|, i);
        StepsDistinct(plan, i, k);
      }
      MarkingKeeps(plan, w, pins, k);
    }
  }

  /** The disk is consistent, and its first `k` steps are marked. */
  ghost predicate GoodTo<D>(plan: Plan<D>, d: Disk<D>, pins: map<Step, D>, k: nat)
    requires k <= |plan.steps|
  {
    Consistent(plan, d, pins) && DoneTo(plan, d, k)
  }

  lemma OneMoreKeeps<D>(plan: Plan<D>, d: Disk<D>, pins: map<Step, D>, k: nat)
    requires WellFormed(plan) && 0 < k <= |plan.steps| && GoodTo(plan, RunTo(plan, d, k - 1), pins, k - 1)
    ensures GoodTo(plan, RunTo(plan, d, k), pins, k)
  {
    StepRunKeeps(plan, RunTo(plan, d, k - 1), pins, k - 1);
  }

  lemma {:induction false} RunToKeeps<D>(plan: Plan<D>, d: Disk<D>, pins: map<Step, D>, k: nat)
    requires WellFormed(plan) && Consistent(plan, d, pins) && k <= |plan.steps|
    ensures GoodTo(plan, RunTo(plan, d, k), pins, k)
  {
    if k > 0 {
      RunToKeeps(plan, d, pins, k - 1);
      OneMoreKeeps(plan, d, pins, k);
    }
  }

  lemma ExtraIsFree<D>(plan: Plan<D>, d: Disk<D>, pins: map<Step, D>, extra: Option<D>)
    requires Consistent(plan, d, pins)
    ensures Consistent(plan, d.(extra := extra), pins)
  {
    var t := d.(extra := extra);
    forall i: nat | i < |plan.steps|
      ensures Right(plan, t, pins, i)
    {
      assert Right(plan, d, pins, i);
    }
    assert forall s :: Done(plan, t, s) == Done(plan, d, s);
  }

  /** What is still done after an invalidation was done before, is not later, and has its file. */
  lemma InvalidatedAt<D>(plan: Plan<D>, d: Disk<D>, step: Step, s: Step)
    ensures var t := InvalidatedAfter(plan.order, d, step);
            && (Done(plan, t, s) ==> Done(plan, d, s) && s !in Later(plan.order, step) && File(t, s) == File(d, s))
            && (Done(plan, d, s) && s !in Later(plan.order, step) && s in plan.order ==> Done(plan, t, s))
  {
  }

  lemma InvalidatingKeepsStep<D>(plan: Plan<D>, d: Disk<D>, pins: map<Step, D>, kept: map<Step, D>, step: Step, k: nat)
    requires WellFormed(plan) && Consistent(plan, d, pins) && k < |plan.steps|
    requires kept == map s | s in pins && s !in Later(plan.order, step) :: pins[s]
    ensures Right(plan, InvalidatedAfter(plan.order, d, step), kept, k)
  {
    assert Right(plan, d, pins, k);
    InvalidatedAt(plan, d, step, plan.steps[k]);
    if plan.steps[k] !in Later(plan.order, step) { KeptExpects(plan, pins, kept, step, k); }
  }

  /** Up to a step that is not invalidated, the pins that are kept expect what all pins do. */
  lemma KeptExpects<D>(plan: Plan<D>, pins: map<Step, D>, kept: map<Step, D>, step: Step, k: nat)
    requires WellFormed(plan) && k < |plan.steps| && plan.steps[k] !in Later(plan.order, step)
    requires kept == map s | s in pins && s !in Later(plan.order, step) :: pins[s]
    ensures Expected(plan, kept, k + 1) == Expected(plan, pins, k + 1)
  {
    EarlierNotLater(plan, step, k);
    ExpectedAgrees(plan, pins, kept, k + 1);
  }

  /** Dropping marks and files of steps from `step` on keeps the rest, whatever happens to later pins. */
  lemma InvalidatingKeeps<D>(plan: Plan<D>, d: Disk<D>, pins: map<Step, D>, kept: map<Step, D>, step: Step)
    requires WellFormed(plan) && Consistent(plan, d, pins)
    requires kept == map s | s in pins && s !in Later(plan.order, step) :: pins[s]
    ensures Consistent(plan, InvalidatedAfter(plan.order, d, step), kept)
  {
    var t := InvalidatedAfter(plan.order, d, step);
    forall k: nat | k < |plan.steps|
      ensures Right(plan, t, kept, k)
    {
      InvalidatingKeepsStep(plan, d, pins, kept, step, k);
    }
    forall s | s in kept
      ensures s in plan.steps && Done(plan, t, s)
    {
      var i :| 0 <= i < |plan.steps| && plan.steps[i] == s;
      Ascending(plan.steps, plan.order, i, i);
      InvalidatedAt(plan, d, step, s);
    }
  }

  lemma {:induction false} PositionInside(order: seq<Step>, i: nat)
    requires Distinct(order) && i < |order|
    ensures Position(order[i], order) == i
  {
    if i > 0 { PositionInside(order[1..], i - 1); }
  }

  lemma LaterMeans(order: seq<Step>, step: Step, s: Step)
    requires Distinct(order) && step in order && s in order
    ensures s in Later(order, step) <==> Position(step, order) < Position(s, order)
  {
    var i := Position(step, order);
    if s in Later(order, step) {
      var j :| 0 <= j < |Later(order, step)| && Later(order, step)[j] == s;
      assert order[i + 1 + j] == s;
      PositionInside(order, i + 1 + j);
    }
    if i < Position(s, order) {
      assert Later(order, step)[Position(s, order) - i - 1] == s;
    }
  }

  /** When step `k` is not after `step`, none of the steps before it is. */
  lemma EarlierNotLater<D>(plan: Plan<D>, step: Step, k: nat)
    requires WellFormed(plan) && k < |plan.steps| && plan.steps[k] !in Later(plan.order, step)
    ensures forall i :: 0 <= i <= k ==> plan.steps[i] !in Later(plan.order, step)
  {
    forall i | 0 <= i <= k
      ensures plan.steps[i] !in Later(plan.order, step)
    {
      Ascending(plan.steps, plan.order, i, k);
      if step in plan.order {
        LaterMeans(plan.order, step, plan.steps[k]);
        LaterMeans(plan.order, step, plan.steps[i]);
      }
    }
  }

  /** Pinning a marked step to new content is consistent once every other marked step is before it. */
  lemma PinKeeps<D>(plan: Plan<D>, d: Disk<D>, pins: map<Step, D>, step: Step, content: D)
    requires Consistent(plan, d, pins)
    requires step in plan.steps && Done(plan, d, step)
    requires forall i, k :: 0 <= i < k < |plan.steps| && plan.steps[i] == step ==> !Done(plan, d, plan.steps[k])
    ensures Consistent(plan, d.(files := d.files[step := content]), pins[step := content])
  {
    var t := d.(files := d.files[step := content]);
    var next := pins[step := content];
    forall k: nat | k < |plan.steps|
      ensures Right(plan, t, next, k)
    {
      assert Right(plan, d, pins, k);
      if plan.steps[k] != step && Done(plan, d, plan.steps[k]) {
        assert forall i :: 0 <= i < k + 1 ==> Lookup(pins, plan.steps[i]) == Lookup(next, plan.steps[i]);
        ExpectedAgrees(plan, pins, next, k + 1);
      }
    }
    forall s | s in next
      ensures s in plan.steps && Done(plan, t, s)
    {
      assert s == step || Done(plan, d, s);
    }
  }

  lemma StepsAfterAreLater<D>(plan: Plan<D>, i: nat, k: nat)
    requires WellFormed(plan) && i < k < |plan.steps|
    ensures plan.steps[k] in Later(plan.order, plan.steps[i])
  {
    Ascending(plan.steps, plan.order, i, k);
    LaterMeans(plan.order, plan.steps[i], plan.steps[k]);
  }

  lemma NotLaterThanItself(order: seq<Step>, step: Step)
    requires Distinct(order)
    ensures step !in Later(order, step)
  {
    if step in order { LaterMeans(order, step, step); }
  }

  lemma LaterUndone<D>(plan: Plan<D>, d: Disk<D>, step: Step)
    requires Distinct(plan.order)
    ensures forall s :: s in Later(plan.order, step) ==> !Done(plan, InvalidatedAfter(plan.order, d, step), s)
    ensures step in plan.order ==> (Done(plan, InvalidatedAfter(plan.order, d, step), step) <==> Done(plan, d, step))
  {
    NotLaterThanItself(plan.order, step);
  }

  lemma EditingKeeps<D>(plan: Plan<D>, d: Disk<D>, pins: map<Step, D>, step: Step, content: D)
    requires WellFormed(plan) && Consistent(plan, d, pins)
    ensures Consistent(plan, Edited(plan, d, step, content), Pins(plan, d, pins, Edits(step, content)))
  {
    if step in d.files {
      var kept := map s | s in pins && s !in Later(plan.order, step) :: pins[s];
      var t := InvalidatedAfter(plan.order, d, step);
      InvalidatingKeeps(plan, d, pins, kept, step);
      WriteThenInvalidate(plan, d, step, content);
      if step in plan.steps && Done(plan, d, step) {
        EditedStepPins(plan, d, kept, step, content);
      } else {
        assert !(step in plan.steps && Done(plan, t, step));
        UnmarkedWriteKeeps(plan, t, Edited(plan, d, step, content), kept, step);
      }
    }
  }

  lemma WriteThenInvalidate<D>(plan: Plan<D>, d: Disk<D>, step: Step, content: D)
    requires Distinct(plan.order) && step in d.files
    ensures var t := InvalidatedAfter(plan.order, d, step);
            Edited(plan, d, step, content) == t.(files := t.files[step := content])
  {
    NotLaterThanItself(plan.order, step);
  }

  lemma EditedStepPins<D>(plan: Plan<D>, d: Disk<D>, kept: map<Step, D>, step: Step, content: D)
    requires WellFormed(plan) && step in plan.steps && Done(plan, d, step)
    requires Consistent(plan, InvalidatedAfter(plan.order, d, step), kept)
    ensures var t := InvalidatedAfter(plan.order, d, step);
            Consistent(plan, t.(files := t.files[step := content]), kept[step := content])
  {
    LaterUndone(plan, d, step);
    var m :| 0 <= m < |plan.steps| && plan.steps[m] == step;
    Ascending(plan.steps, plan.order, m, m);
    forall i, k | 0 <= i < k < |plan.steps| && plan.steps[i] == step
      ensures !Done(plan, InvalidatedAfter(plan.order, d, step), plan.steps[k])
    {
      StepsAfterAreLater(plan, i, k);
    }
    PinKeeps(plan, InvalidatedAfter(plan.order, d, step), kept, step, content);
  }

  lemma FreezingExpects<D>(plan: Plan<D>, d: Disk<D>, pins: map<Step, D>, step: Step, k: nat)
    requires WellFormed(plan) && Consistent(plan, d, pins) && step in pins && k < |plan.steps|
    requires plan.steps[k] != step && plan.steps[k] !in Later(plan.order, step)
    ensures Expected(plan, Frozen(plan, d, pins, step), k + 1) == Expected(plan, pins, k + 1)
  {
    var m :| 0 <= m < |plan.steps| && plan.steps[m] == step;
    if m < k { StepsAfterAreLater(plan, m, k); }
    EarlierNotLater(plan, step, k);
    var frozen := Frozen(plan, d, pins, step);
    forall i | 0 <= i < k + 1
      ensures Lookup(pins, plan.steps[i]) == Lookup(frozen, plan.steps[i])
    {
      if i < m { Ascending(plan.steps, plan.order, i, m); }
    }
    ExpectedAgrees(plan, pins, frozen, k + 1);
  }

  lemma FreezingKeepsStep<D>(plan: Plan<D>, d: Disk<D>, pins: map<Step, D>, step: Step, k: nat)
    requires WellFormed(plan) && Consistent(plan, d, pins) && step in pins && k < |plan.steps|
    ensures Right(plan, FileDeleted(d, step), Frozen(plan, d, pins, step), k)
  {
    assert Right(plan, d, pins, k);
    var s := plan.steps[k];
    if s != step && s !in Later(plan.order, step) { FreezingExpects(plan, d, pins, step, k); }
  }

  lemma DeletingKeeps<D>(plan: Plan<D>, d: Disk<D>, pins: map<Step, D>, step: Step)
    requires WellFormed(plan) && Consistent(plan, d, pins)
    ensures Consistent(plan, FileDeleted(d, step), Pins(plan, d, pins, Deletes(step)))
  {
    if step in d.files {
      var t := FileDeleted(d, step);
      if step in pins {
        forall k: nat | k < |plan.steps|
          ensures Right(plan, t, Frozen(plan, d, pins, step), k)
        {
          FreezingKeepsStep(plan, d, pins, step, k);
        }
      } else {
        forall k: nat | k < |plan.steps|
          ensures Right(plan, t, pins, k)
        {
          assert Right(plan, d, pins, k);
        }
      }
    }
  }

  lemma CrashKeeps<D>(plan: Plan<D>, d: Disk<D>, pins: map<Step, D>, k: nat, left: Option<D>)
    requires WellFormed(plan) && Consistent(plan, d, pins) && k < |plan.steps|
    ensures Consistent(plan, CutShort(plan, d, k, left), pins)
    ensures Consistent(plan, Unmarked(plan, d, k), pins)
  {
    RunToKeeps(plan, d, pins, k);
    var t := RunTo(plan, d, k);
    if !Done(plan, t, plan.steps[k]) {
      UnmarkedWriteKeeps(plan, t, CutShort(plan, d, k, left), pins, plan.steps[k]);
      UnmarkedWriteKeeps(plan, t, Unmarked(plan, d, k), pins, plan.steps[k]);
    }
  }

  lemma EventKeeps<D>(plan: Plan<D>, d: Disk<D>, pins: map<Step, D>, e: Event<D>)
    requires WellFormed(plan) && Consistent(plan, d, pins)
    ensures Consistent(plan, Happen(plan, d, e), Pins(plan, d, pins, e))
  {
    match e
    case CrashBefore(k) => if k <= |plan.steps| { RunToKeeps(plan, d, pins, k); }
    case CrashWriting(k, left) => if k < |plan.steps| { CrashKeeps(plan, d, pins, k, left); }
    case CrashUnmarked(k) => if k < |plan.steps| { CrashKeeps(plan, d, pins, k, None); }
    case CrashFinishing(leftover) =>
      RunToKeeps(plan, d, pins, |plan.steps|);
      ExtraIsFree(plan, RunTo(plan, d, |plan.steps|), pins, leftover);
    case Completes => CompleteRun(plan, d, pins);
    case Edits(step, content) => EditingKeeps(plan, d, pins, step, content);
    case EditsCopy(content) =>
      if d.extra.Some? {
        ExtraIsFree(plan, d, pins, Some(content));
        InvalidatingKeeps(plan, d.(extra := Some(content)), pins,
                          map s | s in pins && s !in Later(plan.order, "audio") :: pins[s], "audio");
      }
    case Deletes(step) => DeletingKeeps(plan, d, pins, step);
  }

  /** What a run leaves that gets to its end: the reference artifacts, every step marked. */
  lemma CompleteRun<D>(plan: Plan<D>, d: Disk<D>, pins: map<Step, D>)
    requires WellFormed(plan) && Consistent(plan, d, pins)
    ensures var t := RunAll(plan, d);
            Consistent(plan, t, pins) && DoneTo(plan, t, |plan.steps|)
            && Inputs(plan, t, |plan.steps|) == Expected(plan, pins, |plan.steps|)
            && t.extra == Some(plan.finish(Expected(plan, pins, |plan.steps|)))
  {
    var t := RunTo(plan, d, |plan.steps|);
    RunToKeeps(plan, d, pins, |plan.steps|);
    InputsAreExpected(plan, t, pins, |plan.steps|);
    ExtraIsFree(plan, t, pins, RunAll(plan, d).extra);
    assert DoneTo(plan, RunAll(plan, d), |plan.steps|) by {
      assert forall i :: 0 <= i < |plan.steps| && Done(plan, t, plan.steps[i])
                         ==> Done(plan, RunAll(plan, d), plan.steps[i]);
    }
    InputsAreExpected(plan, RunAll(plan, d), pins, |plan.steps|);
  }

  lemma {:induction false} HistoryKeeps<D>(plan: Plan<D>, d: Disk<D>, pins: map<Step, D>, events: seq<Event<D>>)
    requires WellFormed(plan) && Consistent(plan, d, pins)
    ensures Consistent(plan, History(plan, d, events), PinsAfter(plan, d, pins, events))
    decreases |events|
  {
    if events != [] {
      EventKeeps(plan, d, pins, events[0]);
      HistoryKeeps(plan, Happen(plan, d, events[0]), Pins(plan, d, pins, events[0]), events[1..]);
    }
  }

  function Empty<D>(): Disk<D> {
    Disk([], map[], None)
  }

  /**
   Whatever crashes, resubmissions, edits and deletions came before, a run that gets to its end leaves
   the artifacts of one uninterrupted run in which every content still standing replaces its step's output.
   */
  lemma ResumeEqualsReference<D>(plan: Plan<D>, events: seq<Event<D>>)
    requires WellFormed(plan)
    ensures var pins := PinsAfter(plan, Empty(), map[], events);
            var t := RunAll(plan, History(plan, Empty(), events));
            Inputs(plan, t, |plan.steps|) == Expected(plan, pins, |plan.steps|)
            && t.extra == Some(plan.finish(Expected(plan, pins, |plan.steps|)))
  {
    HistoryKeeps(plan, Empty(), map[], events);
    CompleteRun(plan, History(plan, Empty(), events), PinsAfter(plan, Empty(), map[], events));
  }

  predicate ByMachine<D>(e: Event<D>) {
    !e.Edits? && !e.EditsCopy? && !e.Deletes?
  }

  lemma {:induction false} MachineKeepsPins<D>(plan: Plan<D>, d: Disk<D>, pins: map<Step, D>, events: seq<Event<D>>)
    requires forall e :: e in events ==> ByMachine(e)
    ensures PinsAfter(plan, d, pins, events) == pins
    decreases |events|
  {
    if events != [] {
      assert ByMachine(events[0]);
      MachineKeepsPins(plan, Happen(plan, d, events[0]), pins, events[1..]);
    }
  }

  /** Any schedule of crashes and resumptions that finally completes equals one clean run. */
  lemma CrashesDoNotMatter<D>(plan: Plan<D>, events: seq<Event<D>>)
    requires WellFormed(plan) && forall e :: e in events ==> ByMachine(e)
    ensures var t := RunAll(plan, History(plan, Empty(), events));
            var clean := RunAll(plan, Empty());
            Inputs(plan, t, |plan.steps|) == Inputs(plan, clean, |plan.steps|) && t.extra == clean.extra
  {
    MachineKeepsPins(plan, Empty(), map[], events);
    ResumeEqualsReference(plan, events);
    ResumeEqualsReference(plan, []);
  }

  /** What the steps from `k` on make when the artifacts before them are given. */
  function Restarted<D>(plan: Plan<D>, before: seq<Option<D>>, n: nat): (r: seq<Option<D>>)
    requires |before| + n <= |plan.steps|
    ensures |r| == |before| + n && r[..|before|] == before
  {
    if n == 0 then before
    else
      var r := Restarted(plan, before, n - 1);
      r + [Some(plan.make(plan.steps[|before| + n - 1], r))]
  }

  /**
   An edit of step `k` in a completed job, followed by any crashes and one complete run: the steps
   before keep their artifacts, `k` has the edited content, and the rest is the pipeline restarted there.
   */
  lemma EditRestarts<D>(plan: Plan<D>, d: Disk<D>, pins: map<Step, D>, k: nat, content: D, events: seq<Event<D>>)
    requires WellFormed(plan) && Consistent(plan, d, pins) && k < |plan.steps| && DoneTo(plan, d, |plan.steps|)
    requires forall e :: e in events ==> ByMachine(e)
    ensures Inputs(plan, RunAll(plan, History(plan, Edited(plan, d, plan.steps[k], content), events)), |plan.steps|)
            == Restarted(plan, Inputs(plan, d, k) + [Some(content)], |plan.steps| - k - 1)
  {
    EditingKeeps(plan, d, pins, plan.steps[k], content);
    EditedThenRun(plan, Edited(plan, d, plan.steps[k], content),
                  Pins(plan, d, pins, Edits(plan.steps[k], content)), events);
    EditExpects(plan, d, pins, k, content);
  }

  lemma EditExpects<D>(plan: Plan<D>, d: Disk<D>, pins: map<Step, D>, k: nat, content: D)
    requires WellFormed(plan) && Consistent(plan, d, pins) && k < |plan.steps| && DoneTo(plan, d, |plan.steps|)
    ensures Expected(plan, Pins(plan, d, pins, Edits(plan.steps[k], content)), |plan.steps|)
            == Restarted(plan, Inputs(plan, d, k) + [Some(content)], |plan.steps| - k - 1)
  {
    DoneStepHasFile(plan, d, pins, k);
    InputsAreExpected(plan, d, pins, k);
    RestartedAtPin(plan, pins, Pins(plan, d, pins, Edits(plan.steps[k], content)), k, content);
  }

  lemma RestartedAtPin<D>(plan: Plan<D>, pins: map<Step, D>, next: map<Step, D>, k: nat, content: D)
    requires WellFormed(plan) && k < |plan.steps|
    requires next == (map s | s in pins && s !in Later(plan.order, plan.steps[k]) :: pins[s])[plan.steps[k] := content]
    ensures Expected(plan, next, |plan.steps|)
            == Restarted(plan, Expected(plan, pins, k) + [Some(content)], |plan.steps| - k - 1)
  {
    PinnedUpTo(plan, pins, next, k, content);
    RestartedIsExpected(plan, next, k, |plan.steps| - k - 1);
  }

  lemma DoneStepHasFile<D>(plan: Plan<D>, d: Disk<D>, pins: map<Step, D>, k: nat)
    requires Consistent(plan, d, pins) && k < |plan.steps| && DoneTo(plan, d, |plan.steps|)
    ensures plan.steps[k] in d.files && Done(plan, d, plan.steps[k])
  {
    assert Done(plan, d, plan.steps[k]) && Right(plan, d, pins, k);
  }

  lemma EditedThenRun<D>(plan: Plan<D>, d: Disk<D>, pins: map<Step, D>, events: seq<Event<D>>)
    requires WellFormed(plan) && Consistent(plan, d, pins) && forall e :: e in events ==> ByMachine(e)
    ensures Inputs(plan, RunAll(plan, History(plan, d, events)), |plan.steps|)
            == Expected(plan, pins, |plan.steps|)
  {
    MachineKeepsPins(plan, d, pins, events);
    HistoryKeeps(plan, d, pins, events);
    CompleteRun(plan, History(plan, d, events), pins);
  }

  lemma PinnedUpTo<D>(plan: Plan<D>, pins: map<Step, D>, next: map<Step, D>, k: nat, content: D)
    requires WellFormed(plan) && k < |plan.steps|
    requires next == (map s | s in pins && s !in Later(plan.order, plan.steps[k]) :: pins[s])[plan.steps[k] := content]
    ensures Expected(plan, next, k + 1) == Expected(plan, pins, k) + [Some(content)]
    ensures forall i :: k < i < |plan.steps| ==> plan.steps[i] !in next
  {
    var step := plan.steps[k];
    NotLaterThanItself(plan.order, step);
    EarlierNotLater(plan, step, k);
    forall i | 0 <= i < k
      ensures plan.steps[i] != step
    {
      Ascending(plan.steps, plan.order, i, k);
    }
    ExpectedAgrees(plan, pins, next, k);
    forall i | k < i < |plan.steps|
      ensures plan.steps[i] !in next
    {
      StepsAfterAreLater(plan, k, i);
    }
  }

  lemma {:induction false} RestartedIsExpected<D>(plan: Plan<D>, pins: map<Step, D>, k: nat, n: nat)
    requires k + 1 + n <= |plan.steps|
    requires forall i :: k < i < |plan.steps| ==> plan.steps[i] !in pins
    ensures Restarted(plan, Expected(plan, pins, k + 1), n) == Expected(plan, pins, k + 1 + n)
  {
    if n > 0 { RestartedIsExpected(plan, pins, k, n - 1); }
  }

  /**
   The copy of the adjusted SRT in the output directory has the audio step's file name, so saving it
   invalidates what follows, but no step reads it: the saved text is lost in the next complete run.
   */
  lemma CopyEditIsLost<D>(plan: Plan<D>, d: Disk<D>, pins: map<Step, D>, content: D, events: seq<Event<D>>)
    requires WellFormed(plan) && Consistent(plan, d, pins) && d.extra.Some?
    requires forall s :: s in pins ==> s !in Later(plan.order, "audio")
    requires forall e :: e in events ==> ByMachine(e)
    ensures var t := RunAll(plan, History(plan, CopyEdited(plan, d, content), events));
            Inputs(plan, t, |plan.steps|) == Expected(plan, pins, |plan.steps|)
            && t.extra == Some(plan.finish(Expected(plan, pins, |plan.steps|)))
  {
    EventKeeps(plan, d, pins, EditsCopy(content));
    assert Pins(plan, d, pins, EditsCopy(content)) == pins;
    MachineKeepsPins(plan, CopyEdited(plan, d, content), pins, events);
    HistoryKeeps(plan, CopyEdited(plan, d, content), pins, events);
    CompleteRun(plan, History(plan, CopyEdited(plan, d, content), events), pins);
  }

  /** Rebuilding step `k` leaves the mark of another step. */
  lemma OthersStayDone<D>(plan: Plan<D>, d: Disk<D>, k: nat, i: nat)
    requires WellFormed(plan) && k < |plan.steps| && i < |plan.steps|
    ensures Done(plan, d, plan.steps[i]) ==> Done(plan, StepRun(plan, d, k), plan.steps[i])
  {
    Accepted(plan, |plan.steps|, i);
    Accepted(plan, |plan.steps|, k);
    MarkedIsDone(plan, Written(plan, d, k), plan.steps[k], plan.steps[i]);
  }

  /** A marked step is skipped. */
  lemma DoneStepSkipped<D>(plan: Plan<D>, d: Disk<D>, t: Disk<D>, n: nat)
    requires 0 < n <= |plan.steps| && RunTo(plan, d, n - 1) == t && Done(plan, t, plan.steps[n - 1])
    ensures RunTo(plan, d, n) == t
  {
  }

  lemma {:induction false} NothingRebuilt<D>(plan: Plan<D>, d: Disk<D>, n: nat)
    requires n <= |plan.steps| && DoneTo(plan, d, n)
    ensures RunTo(plan, d, n) == d
  {
    if n > 0 {
      NothingRebuilt(plan, d, n - 1);
      DoneStepSkipped(plan, d, d, n);
    }
  }

  /** From a state in which all further steps are marked, a run changes nothing more. */
  lemma {:induction false} NothingMore<D>(plan: Plan<D>, d: Disk<D>, t: Disk<D>, m: nat, n: nat)
    requires m <= n <= |plan.steps| && RunTo(plan, d, m) == t
    requires forall i :: m <= i < |plan.steps| ==> Done(plan, t, plan.steps[i])
    ensures RunTo(plan, d, n) == t
  {
    if m < n {
      NothingMore(plan, d, t, m, n - 1);
      DoneStepSkipped(plan, d, t, n);
    }
  }

  lemma RebuildsFirst<D>(plan: Plan<D>, d: Disk<D>, t: Disk<D>, k: nat)
    requires 0 < k <= |plan.steps| && RunTo(plan, d, k - 1) == d && t == StepRun(plan, d, k - 1)
    ensures RunTo(plan, d, k) == t
  {
  }

  lemma OneRebuilt<D>(plan: Plan<D>, d: Disk<D>, t: Disk<D>, k: nat)
    requires k < |plan.steps| && DoneTo(plan, d, k) && t == StepRun(plan, d, k)
    requires forall i :: k < i < |plan.steps| ==> Done(plan, t, plan.steps[i])
    ensures RunTo(plan, d, |plan.steps|) == t
  {
    NothingRebuilt(plan, d, k);
    RebuildsFirst(plan, d, t, k + 1);
    NothingMore(plan, d, t, k + 1, |plan.steps|);
  }

  /** A run in which every step but `k` is marked rebuilds `k` alone. */
  lemma OnlyOneRebuilt<D>(plan: Plan<D>, d: Disk<D>, k: nat)
    requires WellFormed(plan) && k < |plan.steps|
    requires forall i :: 0 <= i < |plan.steps| && i != k ==> Done(plan, d, plan.steps[i])
    ensures RunTo(plan, d, |plan.steps|) == StepRun(plan, d, k)
  {
    forall i | k < i < |plan.steps|
      ensures Done(plan, StepRun(plan, d, k), plan.steps[i])
    {
      OthersStayDone(plan, d, k, i);
    }
    OneRebuilt(plan, d, StepRun(plan, d, k), k);
  }

  /**
   Deleting one step's file in a completed job clears that step only: the next run rebuilds this
   artifact from the ones before it and keeps all others, also those made from a deleted edit.
   */
  lemma DeletionRebuildsOneStep<D>(plan: Plan<D>, d: Disk<D>, k: nat)
    requires WellFormed(plan) && k < |plan.steps| && DoneTo(plan, d, |plan.steps|)
    requires plan.steps[k] in d.files
    ensures var t := RunAll(plan, FileDeleted(d, plan.steps[k]));
            Inputs(plan, t, |plan.steps|)
            == Inputs(plan, d, |plan.steps|)[k := Some(plan.make(plan.steps[k], Inputs(plan, d, k)))]
  {
    var e := FileDeleted(d, plan.steps[k]);
    DeletionClearsOneStep(plan, d, k);
    OnlyOneRebuilt(plan, e, k);
    forall i | 0 <= i < |plan.steps|
      ensures plan.steps[i] == plan.steps[k] <==> i == k
    {
      StepsDistinct(plan, i, k);
    }
    RebuiltFiles(plan, d, e, k, RunAll(plan, e));
  }

  lemma RebuiltFiles<D>(plan: Plan<D>, d: Disk<D>, e: Disk<D>, k: nat, t: Disk<D>)
    requires k < |plan.steps| && !Done(plan, e, plan.steps[k]) && t.files == StepRun(plan, e, k).files
    requires forall i :: 0 <= i < |plan.steps| ==> (plan.steps[i] == plan.steps[k] <==> i == k)
    requires forall i :: 0 <= i < |plan.steps| && i != k ==> File(e, plan.steps[i]) == File(d, plan.steps[i])
    ensures Inputs(plan, t, |plan.steps|)
            == Inputs(plan, d, |plan.steps|)[k := Some(plan.make(plan.steps[k], Inputs(plan, d, k)))]
  {
    InputsAgree(plan, e, d, k);
    var made := plan.make(plan.steps[k], Inputs(plan, e, k));
    assert t.files == e.files[plan.steps[k] := made];
    forall i | 0 <= i < |plan.steps|
      ensures File(t, plan.steps[i]) == if i == k then Some(made) else File(d, plan.steps[i])
    {
    }
  }

  lemma InputsAgree<D>(plan: Plan<D>, d: Disk<D>, e: Disk<D>, k: nat)
    requires k <= |plan.steps|
    requires forall i :: 0 <= i < k ==> File(d, plan.steps[i]) == File(e, plan.steps[i])
    ensures Inputs(plan, d, k) == Inputs(plan, e, k)
  {
  }

  lemma DeletionClearsOneStep<D>(plan: Plan<D>, d: Disk<D>, k: nat)
    requires WellFormed(plan) && k < |plan.steps| && DoneTo(plan, d, |plan.steps|)
    requires plan.steps[k] in d.files
    ensures forall i :: 0 <= i < |plan.steps| ==> (Done(plan, FileDeleted(d, plan.steps[k]), plan.steps[i]) <==> i != k)
    ensures forall i :: 0 <= i < |plan.steps| && i != k ==>
              File(FileDeleted(d, plan.steps[k]), plan.steps[i]) == File(d, plan.steps[i])
  {
    forall i | 0 <= i < |plan.steps|
      ensures Done(plan, FileDeleted(d, plan.steps[k]), plan.steps[i]) <==> i != k
      ensures i != k ==> File(FileDeleted(d, plan.steps[k]), plan.steps[i]) == File(d, plan.steps[i])
    {
      assert Done(plan, d, plan.steps[i]);
      StepsDistinct(plan, i, k);
    }
  }

  // ----- The OCR pipeline -----

  /** `run_ocr_full_pipeline` behind the helper that its callers pass. */
  predicate IsFullPipeline<D>(plan: Plan<D>) {
    plan.order == ORDER && plan.steps == FULL
    && (plan.valid == Some(FULL) || plan.valid == Some(["download"] + FULL))
  }

  lemma FullIsWellFormed<D>(plan: Plan<D>)
    requires IsFullPipeline(plan)
    ensures WellFormed(plan)
  {
    OrderIsDistinct();
    RangeAscends(plan.order, 5, 9);
    FullIsTail();
    FullIsAccepted(plan, 4);
  }

  /** The files after the file of step `i` was saved: its own, the earlier ones, and no later one that is purged. */
  lemma FilesAfterEdit<D>(plan: Plan<D>, d: Disk<D>, i: nat, j: nat, content: D)
    requires WellFormed(plan) && i < |plan.steps| && j < |plan.steps| && plan.steps[i] in d.files
    ensures var t := Edited(plan, d, plan.steps[i], content);
            && Lookup(t.files, plan.steps[i]) == Some(content)
            && (i < j ==> (plan.steps[j] in t.files <==> plan.steps[j] in d.files && plan.steps[j] !in PURGED))
            && (j < i ==> Lookup(t.files, plan.steps[j]) == Lookup(d.files, plan.steps[j]))
  {
    NotLaterThanItself(plan.order, plan.steps[i]);
    StepsDistinct(plan, i, j);
    if i < j {
      StepsAfterAreLater(plan, i, j);
    } else if j < i {
      NotLaterBefore(plan, i, j);
    }
  }

  /** Marks after an invalidation: a known step keeps its own and all that are not later, an unknown one loses its own. */
  lemma MarksAfter<D>(plan: Plan<D>, d: Disk<D>, step: Step, s: Step)
    ensures var t := InvalidatedAfter(plan.order, d, step);
            && (step in plan.order ==> (Done(plan, t, s) <==> Done(plan, d, s) && s !in Later(plan.order, step)))
            && (step !in plan.order ==> (Done(plan, t, s) <==> Done(plan, d, s) && s != step) && t.files == d.files)
  {
    if step !in plan.order { assert Later(plan.order, step) == []; }
  }

  /** Saving the copied SRT voids the marks after the audio step and no other. */
  lemma CopyEditMarks<D>(plan: Plan<D>, d: Disk<D>, content: D, j: nat)
    requires WellFormed(plan) && d.extra.Some? && "audio" in plan.steps && j < |plan.steps|
    ensures Done(plan, CopyEdited(plan, d, content), plan.steps[j])
       <==> Done(plan, d, plan.steps[j]) && Position(plan.steps[j], plan.order) <= Position("audio", plan.order)
  {
    var i :| 0 <= i < |plan.steps| && plan.steps[i] == "audio";
    Ascending(plan.steps, plan.order, i, i);
    Ascending(plan.steps, plan.order, j, j);
    MarksAfter(plan, d.(extra := Some(content)), "audio", plan.steps[j]);
    LaterMeans(plan.order, "audio", plan.steps[j]);
  }

  lemma PurgedAfterFirst(j: nat)
    requires 0 < j < 4
    ensures |FULL| == 4 && FULL[j] in PURGED
  {
    assert FULL[j] == PURGED[j - 1];
  }

  /** Saving the file of one step of the OCR pipeline leaves no later step's file, so nothing stale can be shown. */
  lemma LaterFilesGone<D>(plan: Plan<D>, d: Disk<D>, i: nat, j: nat, content: D)
    requires WellFormed(plan) && plan.steps == FULL && i < j < |plan.steps| && plan.steps[i] in d.files
    ensures plan.steps[j] !in Edited(plan, d, plan.steps[i], content).files
  {
    FilesAfterEdit(plan, d, i, j, content);
    PurgedAfterFirst(j);
  }

  /** A step is not later than one after it. */
  lemma NotLaterBefore<D>(plan: Plan<D>, i: nat, j: nat)
    requires WellFormed(plan) && j < i < |plan.steps|
    ensures plan.steps[j] !in Later(plan.order, plan.steps[i])
  {
    Ascending(plan.steps, plan.order, j, i);
    Ascending(plan.steps, plan.order, i, i);
    LaterMeans(plan.order, plan.steps[i], plan.steps[j]);
  }

  lemma {:induction false} FullIsAccepted<D>(plan: Plan<D>, k: nat)
    requires plan.steps == FULL && (plan.valid == Some(FULL) || plan.valid == Some(["download"] + FULL)) && k <= 4
    ensures AcceptsAll(plan, k)
  {
    if k > 0 {
      FullIsAccepted(plan, k - 1);
      assert plan.steps[k - 1] == FULL[k - 1] && FULL[k - 1] in FULL;
      assert (["download"] + FULL)[k] == FULL[k - 1];
      assert |FULL[k - 1]| > 0;
    }
  }

  lemma OrderIsDistinct()
    ensures Distinct(ORDER)
  {
    var lengths := [8, 10, 4, 13, 7, 3, 9, 5, 5];
    assert forall i :: 0 <= i < 9 ==> |ORDER[i]| == lengths[i];
    assert ORDER[7][0] == 'a' && ORDER[8][0] == 'v';
  }

  lemma PositionsRise(order: seq<Step>, i: nat)
    requires Distinct(order) && i < |order|
    ensures order[i] in order && (i > 0 ==> Position(order[i - 1], order) < Position(order[i], order))
  {
    PositionInside(order, i);
    if i > 0 { PositionInside(order, i - 1); }
  }

  lemma {:induction false} RangeAscends(order: seq<Step>, i: nat, j: nat)
    requires Distinct(order) && i <= j <= |order|
    ensures Ascends(order[i..j], order)
  {
    if i < j {
      RangeAscends(order, i, j - 1);
      PositionsRise(order, j - 1);
      var range := order[i..j];
      assert range[..|range| - 1] == order[i..j - 1] && range[|range| - 1] == order[j - 1];
      assert |range| > 1 ==> range[|range| - 2] == order[j - 2];
    }
  }

  lemma FullIsTail()
    ensures ORDER[5..9] == FULL
  {
  }

  /** The job's output directory and its row, with the operations that change them. */
  class Job<D> {
    var parts: seq<string>
    var files: map<Step, D>
    var extra: Option<D>

    function State(): Disk<D>
      reads this
    {
      Disk(parts, files, extra)
    }

    method MarkStep(step: Step)
      modifies this
      ensures State() == Marked(old(State()), step)
    {
      parts := Dropped(parts, [""]) + [step];
    }

    /** One `run_*_ckpt`. */
    method RunStep(plan: Plan<D>, k: nat)
      requires k < |plan.steps|
      modifies this
      ensures State() == StepRun(plan, old(State()), k)
    {
      if !Done(plan, State(), plan.steps[k]) {
        var made := plan.make(plan.steps[k], Inputs(plan, State(), k));
        files := files[plan.steps[k] := made];
        MarkStep(plan.steps[k]);
      }
    }

    /** `_purge_step_artifacts`. */
    method PurgeArtifacts(steps: seq<Step>)
      modifies this
      ensures State() == old(State()).(files := Purge(old(files), steps))
    {
      for i := 0 to |steps|
        invariant parts == old(parts) && extra == old(extra)
        invariant files == Purge(old(files), steps[..i])
      {
        if steps[i] in PURGED {
          files := files - {steps[i]};
        }
      }
      assert steps[..|steps|] == steps;
    }

    method InvalidateAfter(order: seq<Step>, step: Step)
      modifies this
      ensures State() == InvalidatedAfter(order, old(State()), step)
    {
      parts := Kept(order, parts, step);
      if step in order {
        PurgeArtifacts(Later(order, step));
      } else {
        assert Purge(files, []) == files;
      }
    }

    /** `files_save_srt`, for a file that a step owns. */
    method SaveSrt(plan: Plan<D>, step: Step, content: D) returns (found: bool)
      modifies this
      ensures State() == Edited(plan, old(State()), step, content)
      ensures found <==> step in old(files)
    {
      found := step in files;
      if found {
        files := files[step := content];
        InvalidateAfter(plan.order, step);
      }
    }

    /** `files_delete` with `clear_checkpoint_for_file`. */
    method DeleteFile(step: Step) returns (found: bool)
      modifies this
      ensures State() == FileDeleted(old(State()), step)
      ensures found <==> step in old(files)
    {
      found := step in files;
      if found {
        files := files - {step};
        parts := Dropped(parts, [step]);
      }
    }

    /** The end of a run: the copied SRT and the adjusted original track. */
    method Finish(plan: Plan<D>, ghost d: Disk<D>, ghost d1: Disk<D>, ghost d2: Disk<D>, ghost d3: Disk<D>)
      requires |plan.steps| == 4 && d1 == StepRun(plan, d, 0) && d2 == StepRun(plan, d1, 1)
      requires d3 == StepRun(plan, d2, 2) && State() == StepRun(plan, d3, 3)
      modifies this`extra
      ensures State() == RunAll(plan, d)
    {
      FourSteps(plan, d, d1, d2, d3, State());
      extra := Some(plan.finish(Inputs(plan, State(), 4)));
    }

    /**
     `run_ocr_full_pipeline`. The paths that a skipped audio step returns lack the WAV's, so a run with
     a validation label fails at its very end exactly when audio was already marked at its beginning.
     */
    method RunFull(plan: Plan<D>, validate: bool) returns (keyError: bool)
      requires IsFullPipeline(plan)
      modifies this
      ensures State() == RunAll(plan, old(State()))
      ensures keyError <==> validate && Done(plan, old(State()), "audio")
    {
      RunStep(plan, 0);
      ghost var d1 := State();
      RunStep(plan, 1);
      ghost var d2 := State();
      AudioMarkStands(plan, old(State()));
      var paths := if Done(plan, State(), "audio") then {"output_srt_path", "changed_json_path"}
                   else {"output_srt_path", "output_wav_path", "changed_json_path"};
      RunStep(plan, 2);
      ghost var d3 := State();
      RunStep(plan, 3);
      Finish(plan, old(State()), d1, d2, d3);
      keyError := validate && "output_wav_path" !in paths;
    }
  }

  /** A run of four steps, state by state. */
  lemma FourSteps<D>(plan: Plan<D>, d: Disk<D>, d1: Disk<D>, d2: Disk<D>, d3: Disk<D>, d4: Disk<D>)
    requires |plan.steps| == 4 && d1 == StepRun(plan, d, 0) && d2 == StepRun(plan, d1, 1)
    requires d3 == StepRun(plan, d2, 2) && d4 == StepRun(plan, d3, 3)
    ensures RunAll(plan, d) == d4.(extra := Some(plan.finish(Inputs(plan, d4, 4))))
  {
    assert RunTo(plan, d, 1) == d1;
    assert RunTo(plan, d, 2) == d2;
    assert RunTo(plan, d, 3) == d3;
  }

  lemma AudioMarkStands<D>(plan: Plan<D>, d: Disk<D>)
    requires IsFullPipeline(plan)
    ensures Done(plan, StepRun(plan, StepRun(plan, d, 0), 1), "audio") <==> Done(plan, d, "audio")
  {
    assert plan.steps[0] == "ocr" && plan.steps[1] == "translate";
    MarkedIsDone(plan, Written(plan, d, 0), "ocr", "audio");
    var t := StepRun(plan, d, 0);
    MarkedIsDone(plan, Written(plan, t, 1), "translate", "audio");
  }
}
