/**
 The thermal gate and the hang guard of gpu_thermal.py: objects polled by a monitor thread while workers
 arm and disarm them. Each method is tied to the history of all calls; what the history means is said
 separately, without the fields, and proved equal for every history.
 */
module ThermalGate {
  import opened Text

  /** The daemon as one call sees it: running jobs, whether a model is loaded, and the clock. */
  datatype Sample = Sample(active: nat, loaded: bool, now: real)

  /** One cycle: both sensors, and what the thermal test and the idle-timeout test see. */
  datatype Reading = Reading(gpu: Option<real>, cpu: Option<real>, thermal: Sample, timeout: Sample)

  datatype Event =
    | ArmGrace(now: real)
    | DisarmGrace
    | ArmIdleTimeout(now: real)
    | DisarmIdleTimeout
    | Poll(reading: Reading)

  datatype Config = Config(limit: real, cooldown: real, idle: real, critical: real,
                           grace: real, idleTimeout: real, hotPolls: int)

  /** The hotter of the two sensors, as far as they can be read. */
  function Hot(r: Reading): Option<real> {
    match (r.gpu, r.cpu)
    case (Some(g), Some(c)) => Some(if g >= c then g else c)
    case (None, c) => c
    case (g, None) => g
  }

  predicate Free(s: Sample) {
    s.active == 0 && s.loaded
  }

  // ----- What the history means -----

  predicate OverLimit(c: Config, e: Event) {
    e.Poll? && e.reading.gpu.Some? && e.reading.gpu.value >= c.limit
  }

  predicate Cooled(c: Config, e: Event) {
    e.Poll? && e.reading.gpu.Some? && e.reading.gpu.value <= c.cooldown
  }

  /** The last GPU reading outside the dead band was at or over the limit. */
  ghost predicate LastOutsideIsOver(c: Config, h: seq<Event>) {
    exists k :: 0 <= k < |h| && OverLimit(c, h[k]) && forall j :: k < j < |h| ==> !Cooled(c, h[j])
  }

  /** The end of the grace that the last arming or disarming set. */
  function GraceEnd(c: Config, h: seq<Event>): real {
    if h == [] then 0.0
    else match h[|h| - 1]
      case ArmGrace(now) => now + c.grace
      case DisarmGrace => 0.0
      case _ => GraceEnd(c, h[..|h| - 1])
  }

  /** The deadline that the last arming set, unless a disarming followed. */
  function Deadline(c: Config, h: seq<Event>): Option<real> {
    if h == [] then None
    else match h[|h| - 1]
      case ArmIdleTimeout(now) => Some(now + c.idleTimeout)
      case DisarmIdleTimeout => None
      case _ => Deadline(c, h[..|h| - 1])
  }

  /** An idle reading: a temperature is known, no job runs and a model is loaded. */
  predicate IdleReading(r: Reading) {
    Hot(r).Some? && Free(r.thermal)
  }

  /** An idle reading that finds the machine hot: critical, or warm with the grace over. */
  predicate HotReading(c: Config, graceEnd: real, r: Reading) {
    IdleReading(r)
    && (Hot(r).value >= c.critical || (Hot(r).value >= c.idle && r.thermal.now >= graceEnd))
  }

  predicate IdlePoll(e: Event) {
    e.Poll? && IdleReading(e.reading)
  }

  predicate IdleHot(c: Config, h: seq<Event>, k: nat)
    requires k < |h|
  {
    h[k].Poll? && HotReading(c, GraceEnd(c, h[..k]), h[k].reading)
  }

  predicate IdleNotHot(c: Config, h: seq<Event>, k: nat)
    requires k < |h|
  {
    IdlePoll(h[k]) && !IdleHot(c, h, k)
  }

  /** The idle-hot polls among the events from `from` on. */
  function HotSince(c: Config, h: seq<Event>, from: nat): (n: nat)
    requires from <= |h|
    ensures n <= |h| - from
    decreases |h| - from
  {
    if from == |h| then 0 else (if IdleHot(c, h, from) then 1 else 0) + HotSince(c, h, from + 1)
  }

  /** The place after the last idle poll that was not hot. */
  function AfterLastCool(c: Config, h: seq<Event>, k: nat): (m: nat)
    requires k <= |h|
    ensures m <= k
    ensures m > 0 ==> IdleNotHot(c, h, m - 1)
    ensures forall j :: m <= j < k ==> !IdleNotHot(c, h, j)
  {
    if k == 0 then 0 else if IdleNotHot(c, h, k - 1) then k else AfterLastCool(c, h, k - 1)
  }

  /** Idle-hot polls since the last idle poll that was not hot; polls during a job neither count nor reset. */
  function HotStreak(c: Config, h: seq<Event>): nat {
    HotSince(c, h, AfterLastCool(c, h, |h|))
  }

  predicate TimedOut(c: Config, deadline: Option<real>, s: Sample) {
    c.idleTimeout > 0.0 && Free(s) && deadline.Some? && s.now >= deadline.value
  }

  /** The daemon is told to stop by the last event of `h`. */
  predicate Stops(c: Config, h: seq<Event>)
    requires h != [] && h[|h| - 1].Poll?
  {
    var k := |h| - 1;
    (IdleHot(c, h, k) && HotStreak(c, h) >= c.hotPolls) || TimedOut(c, Deadline(c, h[..k]), h[k].reading.timeout)
  }

  // ----- One more event -----

  lemma LastOutsideStep(c: Config, h: seq<Event>, e: Event)
    requires c.cooldown < c.limit
    ensures LastOutsideIsOver(c, h + [e]) <==> OverLimit(c, e) || (LastOutsideIsOver(c, h) && !Cooled(c, e))
  {
    var g := h + [e];
    if OverLimit(c, e) {
      assert OverLimit(c, g[|h|]);
    }
    if LastOutsideIsOver(c, h) && !Cooled(c, e) {
      var k :| 0 <= k < |h| && OverLimit(c, h[k]) && forall j :: k < j < |h| ==> !Cooled(c, h[j]);
      assert OverLimit(c, g[k]) && forall j :: k < j < |g| ==> !Cooled(c, g[j]);
    }
    if LastOutsideIsOver(c, g) && !OverLimit(c, e) {
      var k :| 0 <= k < |g| && OverLimit(c, g[k]) && forall j :: k < j < |g| ==> !Cooled(c, g[j]);
      assert g[|h|] == e;
      assert k < |h| && h[k] == g[k];
      assert forall j :: k < j < |h| ==> h[j] == g[j];
    }
  }

  lemma {:induction false} HotSinceGrows(c: Config, h: seq<Event>, e: Event, from: nat)
    requires from <= |h|
    ensures HotSince(c, h + [e], from) == HotSince(c, h, from) + if IdleHot(c, h + [e], |h|) then 1 else 0
    decreases |h| - from
  {
    if from < |h| {
      assert (h + [e])[..from] == h[..from];
      HotSinceGrows(c, h, e, from + 1);
    }
  }

  lemma {:induction false} LastCoolStays(c: Config, h: seq<Event>, e: Event, k: nat)
    requires k <= |h|
    ensures AfterLastCool(c, h + [e], k) == AfterLastCool(c, h, k)
  {
    if k > 0 {
      assert (h + [e])[..k - 1] == h[..k - 1];
      LastCoolStays(c, h, e, k - 1);
    }
  }

  lemma HotStreakStep(c: Config, h: seq<Event>, e: Event)
    ensures HotStreak(c, h + [e]) == (if IdleHot(c, h + [e], |h|) then HotStreak(c, h) + 1
                                      else if IdleNotHot(c, h + [e], |h|) then 0 else HotStreak(c, h))
  {
    LastCoolStays(c, h, e, |h|);
    HotSinceGrows(c, h, e, AfterLastCool(c, h, |h|));
  }

  // ----- The gate -----

  class Gate {
    const config: Config
    var blocked: bool
    var hot: nat
    var prewarmUntil: real
    var idleKillAt: Option<real>
    ghost var history: seq<Event>

    /** The fields say what the history means; `blocked` needs a dead band. */
    ghost predicate Valid()
      reads this
    {
      && config.cooldown < config.limit
      && blocked == LastOutsideIsOver(config, history)
      && hot == HotStreak(config, history)
      && prewarmUntil == GraceEnd(config, history)
      && idleKillAt == Deadline(config, history)
    }

    constructor (config: Config)
      requires config.cooldown < config.limit
      ensures Valid() && history == [] && this.config == config
    {
      this.config := config;
      blocked, hot, prewarmUntil, idleKillAt, history := false, 0, 0.0, None, [];
    }

    ghost method Record(e: Event)
      requires config.cooldown < config.limit
      modifies this`history
      ensures history == old(history) + [e]
      ensures LastOutsideIsOver(config, history)
              <==> OverLimit(config, e) || (LastOutsideIsOver(config, old(history)) && !Cooled(config, e))
      ensures HotStreak(config, history)
              == (if IdleHot(config, history, |old(history)|) then HotStreak(config, old(history)) + 1
                  else if IdleNotHot(config, history, |old(history)|) then 0 else HotStreak(config, old(history)))
      ensures history[..|old(history)|] == old(history)
    {
      LastOutsideStep(config, history, e);
      HotStreakStep(config, history, e);
      history := history + [e];
    }

    method StartGrace(now: real)
      requires Valid()
      modifies this
      ensures Valid() && history == old(history) + [ArmGrace(now)]
    {
      prewarmUntil := now + config.grace;
      Record(ArmGrace(now));
    }

    method EndGrace()
      requires Valid()
      modifies this
      ensures Valid() && history == old(history) + [DisarmGrace]
    {
      prewarmUntil := 0.0;
      Record(DisarmGrace);
    }

    method StartIdleTimeout(now: real)
      requires Valid()
      modifies this
      ensures Valid() && history == old(history) + [ArmIdleTimeout(now)]
    {
      idleKillAt := Some(now + config.idleTimeout);
      Record(ArmIdleTimeout(now));
    }

    method EndIdleTimeout()
      requires Valid()
      modifies this
      ensures Valid() && history == old(history) + [DisarmIdleTimeout]
    {
      idleKillAt := None;
      Record(DisarmIdleTimeout);
    }

    /** What one more poll means, in terms of the fields before it. */
    ghost method RecordPoll(r: Reading)
      requires Valid()
      modifies this`history
      ensures history == old(history) + [Poll(r)]
      ensures GraceEnd(config, history) == prewarmUntil && Deadline(config, history) == idleKillAt
      ensures LastOutsideIsOver(config, history)
              <==> OverLimit(config, Poll(r)) || (blocked && !Cooled(config, Poll(r)))
      ensures HotStreak(config, history) == (if HotReading(config, prewarmUntil, r) then hot + 1
                                             else if IdleReading(r) then 0 else hot)
      ensures Stops(config, history)
              <==> (HotReading(config, prewarmUntil, r) && hot + 1 >= config.hotPolls)
                   || TimedOut(config, idleKillAt, r.timeout)
    {
      Record(Poll(r));
    }

    /** Over the limit the workers pause, at the cooldown target they resume, in between nothing changes. */
    method SetBlocked(temp: real)
      requires config.cooldown < config.limit
      modifies this`blocked
      ensures blocked <==> temp >= config.limit || (old(blocked) && temp > config.cooldown)
    {
      if temp >= config.limit && !blocked {
        blocked := true;
      } else if temp <= config.cooldown && blocked {
        blocked := false;
      }
    }

    method CountHot(hottest: real, s: Sample) returns (stop: bool)
      modifies this`hot
      ensures !Free(s) ==> hot == old(hot) && !stop
      ensures Free(s) && (hottest >= config.critical || (hottest >= config.idle && s.now >= prewarmUntil))
              ==> hot == old(hot) + 1 && (stop <==> hot >= config.hotPolls)
      ensures Free(s) && hottest < config.critical && (hottest < config.idle || s.now < prewarmUntil)
              ==> hot == 0 && !stop
    {
      stop := false;
      if s.active == 0 && s.loaded {
        if hottest >= config.critical || (hottest >= config.idle && s.now >= prewarmUntil) {
          hot := hot + 1;
          stop := hot >= config.hotPolls;
        } else {
          hot := 0;
        }
      }
    }

    /** The part of `poll` that looks at temperatures. */
    method LookAtTemperatures(r: Reading) returns (stop: bool)
      requires config.cooldown < config.limit
      modifies this`blocked, this`hot
      ensures blocked <==> OverLimit(config, Poll(r)) || (old(blocked) && !Cooled(config, Poll(r)))
      ensures hot == (if HotReading(config, prewarmUntil, r) then old(hot) + 1
                      else if IdleReading(r) then 0 else old(hot))
      ensures stop <==> HotReading(config, prewarmUntil, r) && hot >= config.hotPolls
    {
      stop := false;
      var hottest := Hot(r);
      if hottest.Some? {
        if r.gpu.Some? {
          SetBlocked(r.gpu.value);
        }
        stop := CountHot(hottest.value, r.thermal);
      }
    }

    /** `poll`, up to its sleep. */
    method DoPoll(r: Reading) returns (stop: bool)
      requires Valid()
      modifies this
      ensures Valid() && history == old(history) + [Poll(r)]
      ensures stop <==> Stops(config, history)
    {
      RecordPoll(r);
      stop := LookAtTemperatures(r);
      stop := stop || TimedOut(config, idleKillAt, r.timeout);
    }
  }

  // ----- Whole runs on values -----

  /** How one event changes the `blocked` field. */
  function BlockedNext(c: Config, blocked: bool, e: Event): bool {
    if OverLimit(c, e) && !blocked then true
    else if Cooled(c, e) && blocked then false
    else blocked
  }

  function BlockedAfter(c: Config, h: seq<Event>): bool {
    if h == [] then false else BlockedNext(c, BlockedAfter(c, h[..|h| - 1]), h[|h| - 1])
  }

  lemma {:induction false} BlockedMeans(c: Config, h: seq<Event>)
    requires c.cooldown < c.limit
    ensures BlockedAfter(c, h) <==> LastOutsideIsOver(c, h)
  {
    if h != [] {
      BlockedMeans(c, h[..|h| - 1]);
      LastOutsideStep(c, h[..|h| - 1], h[|h| - 1]);
      assert h == h[..|h| - 1] + [h[|h| - 1]];
    }
  }

  /**
   The gate tells the last reading outside the dead band over every run exactly when there is a dead
   band: otherwise a machine that stays at the limit is paused by one poll and resumed by the next.
   */
  lemma BlockedIffDeadBand(c: Config)
    ensures (forall h :: BlockedAfter(c, h) <==> LastOutsideIsOver(c, h)) <==> c.cooldown < c.limit
  {
    if c.cooldown < c.limit {
      forall h
        ensures BlockedAfter(c, h) <==> LastOutsideIsOver(c, h)
      {
        BlockedMeans(c, h);
      }
    } else {
      var e := Poll(Reading(Some(c.limit), None, Sample(0, false, 0.0), Sample(0, false, 0.0)));
      assert [e, e][..1] == [e] && [e][..0] == [];
      assert BlockedAfter(c, [e]);
      assert !BlockedAfter(c, [e, e]);
      assert OverLimit(c, [e, e][1]);
      assert LastOutsideIsOver(c, [e, e]);
    }
  }

  /** From event `m` on no idle poll was not hot, enough were hot, and the last event is one. */
  ghost predicate FullStreak(c: Config, h: seq<Event>, m: nat) {
    && m < |h| && IdleHot(c, h, |h| - 1) && HotSince(c, h, m) >= c.hotPolls
    && forall j :: m <= j < |h| ==> !IdleNotHot(c, h, j)
  }

  /** The idle timeout was armed at event `k` and neither armed again nor disarmed since, up to event `n`. */
  ghost predicate ArmedLast(h: seq<Event>, k: int, n: nat) {
    && 0 <= k < n <= |h| && h[k].ArmIdleTimeout?
    && forall j :: k < j < n ==> !h[j].ArmIdleTimeout? && !h[j].DisarmIdleTimeout?
  }

  lemma {:induction false} HotSinceShrinks(c: Config, h: seq<Event>, m: nat, n: nat)
    requires m <= n <= |h|
    ensures HotSince(c, h, n) <= HotSince(c, h, m)
    decreases n - m
  {
    if m < n { HotSinceShrinks(c, h, m + 1, n); }
  }

  lemma ArmedBefore(h: seq<Event>, n: nat)
    requires 0 < n <= |h| && !h[n - 1].ArmIdleTimeout? && !h[n - 1].DisarmIdleTimeout?
    ensures forall k :: ArmedLast(h, k, n) <==> ArmedLast(h, k, n - 1)
  {
  }

  lemma {:induction false} DeadlineMeans(c: Config, h: seq<Event>, n: nat)
    requires n <= |h|
    ensures Deadline(c, h[..n]).Some? <==> exists k: int :: ArmedLast(h, k, n)
    ensures forall k: int :: ArmedLast(h, k, n) ==> Deadline(c, h[..n]) == Some(h[k].now + c.idleTimeout)
  {
    if n > 0 {
      DeadlineMeans(c, h, n - 1);
      assert h[..n][..n - 1] == h[..n - 1] && h[..n][n - 1] == h[n - 1];
      if h[n - 1].ArmIdleTimeout? {
        assert ArmedLast(h, n - 1, n);
      } else if !h[n - 1].DisarmIdleTimeout? {
        var before: nat := n - 1;
        ArmedBefore(h, n);
        if k :| ArmedLast(h, k, before) {
          assert ArmedLast(h, k, n);
        }
      }
    }
  }

  lemma StreakMeans(c: Config, h: seq<Event>)
    requires h != []
    ensures IdleHot(c, h, |h| - 1) && HotStreak(c, h) >= c.hotPolls <==> exists m: nat :: FullStreak(c, h, m)
  {
    var last := AfterLastCool(c, h, |h|);
    if IdleHot(c, h, |h| - 1) && HotStreak(c, h) >= c.hotPolls {
      assert last < |h|;
      assert FullStreak(c, h, last);
    }
    if m: nat :| FullStreak(c, h, m) {
      HotSinceShrinks(c, h, last, m);
    }
  }

  /**
   A poll stops the daemon exactly when a model is loaded and no job runs, and either enough idle polls have
   found the machine hot since one did not, this one among them, or the timeout armed last, and not disarmed
   since, has passed.
   */
  lemma StopsIff(c: Config, h: seq<Event>)
    requires h != [] && h[|h| - 1].Poll?
    ensures var r := h[|h| - 1].reading;
            Stops(c, h)
            <==> (Free(r.thermal) && exists m: nat :: FullStreak(c, h, m))
                 || (Free(r.timeout) && c.idleTimeout > 0.0
                     && exists k :: ArmedLast(h, k, |h| - 1) && r.timeout.now >= h[k].now + c.idleTimeout)
  {
    StreakMeans(c, h);
    DeadlineMeans(c, h, |h| - 1);
  }

  /** A poll that is not an idle poll leaves the streak alone, so hot polls need not be consecutive. */
  lemma {:induction false} BusyPollsKeepStreak(c: Config, h: seq<Event>, more: seq<Event>)
    requires forall i :: 0 <= i < |more| ==> !IdlePoll(more[i])
    ensures HotStreak(c, h + more) == HotStreak(c, h)
  {
    if more == [] {
      assert h + more == h;
    } else {
      var n := |more| - 1;
      BusyPollsKeepStreak(c, h, more[..n]);
      assert h + more == (h + more[..n]) + [more[n]];
      HotStreakStep(c, h + more[..n], more[n]);
    }
  }

  /** The grace was started at event `k` and neither started again nor ended since, up to event `n`. */
  ghost predicate GraceLast(h: seq<Event>, k: int, n: nat) {
    && 0 <= k < n <= |h| && h[k].ArmGrace?
    && forall j :: k < j < n ==> !h[j].ArmGrace? && !h[j].DisarmGrace?
  }

  lemma GraceBefore(h: seq<Event>, n: nat)
    requires 0 < n <= |h| && !h[n - 1].ArmGrace? && !h[n - 1].DisarmGrace?
    ensures forall k :: GraceLast(h, k, n) <==> GraceLast(h, k, n - 1)
  {
  }

  lemma {:induction false} GraceMeans(c: Config, h: seq<Event>, n: nat)
    requires n <= |h|
    ensures forall k: int :: GraceLast(h, k, n) ==> GraceEnd(c, h[..n]) == h[k].now + c.grace
    ensures (!exists k: int :: GraceLast(h, k, n)) ==> GraceEnd(c, h[..n]) == 0.0
  {
    if n > 0 {
      GraceMeans(c, h, n - 1);
      assert h[..n][..n - 1] == h[..n - 1] && h[..n][n - 1] == h[n - 1];
      if h[n - 1].ArmGrace? {
        assert GraceLast(h, n - 1, n);
      } else if !h[n - 1].DisarmGrace? {
        var before: nat := n - 1;
        GraceBefore(h, n);
        if k :| GraceLast(h, k, before) {
          assert GraceLast(h, k, n);
        }
      }
    }
  }

  /** One of the two sensors reads at least this. */
  predicate SomeSensor(r: Reading, least: real) {
    (r.gpu.Some? && r.gpu.value >= least) || (r.cpu.Some? && r.cpu.value >= least)
  }

  /**
   A poll counts as hot exactly when it finds the daemon free and one sensor, whatever the other reads, critical,
   or warm with no grace left: the last one started and not ended is over, or there is none.
   */
  lemma HotPollIff(c: Config, h: seq<Event>, n: nat)
    requires n < |h| && h[n].Poll? && h[n].reading.thermal.now >= 0.0
    ensures var r := h[n].reading;
            IdleHot(c, h, n)
            <==> Free(r.thermal)
                 && (SomeSensor(r, c.critical)
                     || (SomeSensor(r, c.idle) && forall k :: GraceLast(h, k, n) ==> r.thermal.now >= h[k].now + c.grace))
  {
    GraceMeans(c, h, n);
    if k :| GraceLast(h, k, n) {
      assert GraceEnd(c, h[..n]) == h[k].now + c.grace;
    }
  }

  /** A critical machine: every idle poll counts, and the threshold's poll stops the daemon. */
  lemma {:induction false} CriticalStops(c: Config, h: seq<Event>)
    requires h != [] && forall i :: 0 <= i < |h| ==> IdlePoll(h[i]) && Hot(h[i].reading).value >= c.critical
    ensures HotStreak(c, h) == |h| && (|h| >= c.hotPolls ==> Stops(c, h))
  {
    var n := |h| - 1;
    assert h == h[..n] + [h[n]];
    HotStreakStep(c, h[..n], h[n]);
    if n > 0 { CriticalStops(c, h[..n]); }
  }

  // ----- The hang guard -----

  type Thread = int

  datatype Mark = Arm(tid: Thread, now: real) | Disarm(tid: Thread)

  /** When the thread's present job started: its last mark is an arming. */
  function Since(h: seq<Mark>, tid: Thread): Option<real> {
    if h == [] then None
    else if h[|h| - 1].tid != tid then Since(h[..|h| - 1], tid)
    else if h[|h| - 1].Arm? then Some(h[|h| - 1].now)
    else None
  }

  /** Mark `k` is the last one of its thread. */
  ghost predicate LastOf(h: seq<Mark>, tid: Thread, k: int) {
    0 <= k < |h| && h[k].tid == tid && forall j :: k < j < |h| ==> h[j].tid != tid
  }

  lemma {:induction false} SinceMeans(h: seq<Mark>, tid: Thread)
    ensures forall k :: LastOf(h, tid, k) ==> Since(h, tid) == if h[k].Arm? then Some(h[k].now) else None
    ensures (!exists k :: LastOf(h, tid, k)) ==> Since(h, tid) == None
  {
    if h != [] {
      var n := |h| - 1;
      SinceMeans(h[..n], tid);
      if h[n].tid == tid {
        assert LastOf(h, tid, n);
      } else {
        LastBefore(h, tid);
        if k :| LastOf(h[..n], tid, k) {
          assert LastOf(h, tid, k);
        }
      }
    }
  }

  lemma LastBefore(h: seq<Mark>, tid: Thread)
    requires h != [] && h[|h| - 1].tid != tid
    ensures forall k :: LastOf(h, tid, k) <==> LastOf(h[..|h| - 1], tid, k)
  {
  }

  class Guard {
    const timeout: real
    var jobStart: map<Thread, real>
    ghost var history: seq<Mark>

    ghost predicate Valid()
      reads this
    {
      forall tid :: Lookup(jobStart, tid) == Since(history, tid)
    }

    constructor (timeout: real)
      ensures Valid() && history == [] && this.timeout == timeout
    {
      this.timeout := timeout;
      jobStart, history := map[], [];
    }

    method ArmJob(tid: Thread, now: real)
      requires Valid()
      modifies this
      ensures Valid() && history == old(history) + [Arm(tid, now)]
    {
      jobStart := jobStart[tid := now];
      history := history + [Arm(tid, now)];
    }

    method DisarmJob(tid: Thread)
      requires Valid()
      modifies this
      ensures Valid() && history == old(history) + [Disarm(tid)]
    {
      jobStart := jobStart - {tid};
      history := history + [Disarm(tid)];
    }

    /** `stuck`: the jobs that have run longer than the timeout, with their running times. */
    method Stuck(now: real) returns (stuck: map<Thread, real>)
      requires Valid()
      ensures forall tid :: tid in stuck <==> Since(history, tid).Some? && now - Since(history, tid).value > timeout
      ensures forall tid :: tid in stuck ==> stuck[tid] == now - Since(history, tid).value
    {
      assert forall tid :: Lookup(jobStart, tid) == Since(history, tid);
      stuck := map tid | tid in jobStart && now - jobStart[tid] > timeout :: now - jobStart[tid];
    }
  }
}
