/** The life of the client: waiting, checking and rebooting in a loop, and starting again from what
    storage kept.  Every point where the client waits for several things at once is decided by the
    inputs, so that all inputs together are all schedules. */
module ClientRun {
  import opened Wrappers
  import opened Clock
  import opened Protocol
  import opened Storage
  import opened CheckContext
  import opened AppSet
  import opened Trace
  import opened UpdateFlow

  const CHECK_REBOOT_ALLOWED_INTERVAL: Duration := FromSecs(30 * 60)

  /** What ends one round of waiting for a reboot. */
  datatype RebootStep =
    | RecheckDue(allowed: bool)
    | PingDue(ping: PingInput, timing: CheckTiming)
    | AskedToCheck(options: CheckOptions, allowedOnDemand: bool)

  /** The rounds of a wait; when they run out before a reboot is allowed, the wait is still going on
      where the record ends. */
  datatype RebootInput = RebootInput(
    allowedAtOnce: bool,
    timing: CheckTiming,
    steps: seq<RebootStep>,
    rebootReturns: bool)

  datatype Wake = TimerFired | Requested(options: CheckOptions)

  /** One turn of the outer loop.  `arrivals` are the requests received while the check runs, and
      `pattern` says how they fall between the acts of the check. */
  datatype CycleInput = CycleInput(
    now: ComplexTime,
    removeFaults: Faults,
    timing: CheckTiming,
    wake: Wake,
    decision: CheckDecision,
    check: CheckInput,
    arrivals: seq<CheckOptions>,
    pattern: seq<bool>,
    reboot: RebootInput)

  /** Where a life of the process ends: where its inputs do, right after one of its commits, or, with the
      power, after any number of acts. */
  datatype Ending = OfItself | AfterCommit(nth: nat) | Anywhere(acts: nat)

  datatype BootInput = BootInput(presets: seq<App>, start: Instant, cycles: seq<CycleInput>, ending: Ending)

  /** `update_next_update_time` and the wait made from its answer. */
  function UpdateNextUpdateTime(w: World, timing: CheckTiming): World {
    var w1 := Emit(w, Query(NextUpdateTime(timing)));
    var w2 := w1.WithSchedule(w1.context.schedule.(nextUpdateTime := Some(timing)));
    Emit(Emit(w2, Yield(ScheduleChange(w2.context.schedule))), Waited(ForNextCheck(timing)))
  }

  /** One round: the state after it, the options it leaves, and whether the reboot may go ahead. */
  datatype Round = Round(world: World, options: CheckOptions, allowed: bool)

  function RebootRound(env: Env, w: World, options: CheckOptions, installed: InstallResult, step: RebootStep): Round {
    match step
    case RecheckDue(allowed) =>
      var w1 := Emit(w, Query(RebootAllowed(options, installed, allowed)));
      Round(if allowed then w1 else Emit(w1, Waited(ForReboot(CHECK_REBOOT_ALLOWED_INTERVAL))), options, allowed)
    case PingDue(ping, timing) =>
      Round(UpdateNextUpdateTime(PingOmaha(env, w, ping), timing), options, false)
    case AskedToCheck(asked, allowed) =>
      var w1 := Emit(Emit(w, Received(asked)), Replied(AlreadyRunning));
      if asked.source.OnDemand? then
        var onDemand := options.(source := OnDemand);
        Round(Emit(w1, Query(RebootAllowed(onDemand, installed, allowed))), onDemand, allowed)
      else Round(w1, options, false)
  }

  function RebootLoop(
    env: Env, w: World, options: CheckOptions, installed: InstallResult, steps: seq<RebootStep>): Out<bool>
    decreases |steps|
  {
    if steps == [] then Out(w, false)
    else
      var r := RebootRound(env, w, options, installed, steps[0]);
      if r.allowed then Out(Emit(r.world, PerformReboot), true)
      else RebootLoop(env, r.world, r.options, installed, steps[1..])
  }

  /** `wait_for_reboot`: true once the reboot was asked for. */
  function WaitForReboot(
    env: Env, w: World, options: CheckOptions, installed: InstallResult, r: RebootInput): Out<bool>
  {
    var w1 := Emit(w, Query(RebootAllowed(options, installed, r.allowedAtOnce)));
    if r.allowedAtOnce then Out(Emit(w1, PerformReboot), true)
    else
      var w2 := Emit(w1, Waited(ForReboot(CHECK_REBOOT_ALLOWED_INTERVAL)));
      RebootLoop(env, UpdateNextUpdateTime(w2, r.timing), options, installed, r.steps)
  }

  /** The time spent waiting for the reboot before this boot, if the clocks allow to tell. */
  function WaitedForReboot(finish: SystemTime, start: Instant, now: ComplexTime): Option<Duration> {
    if now.wall < finish || now.mono < start || now.wall - finish < now.mono - start then None
    else Some(now.wall - finish - (now.mono - start))
  }

  /** The outer loop between two turns; `pendingReport` is the finish time still to be reported,
      and a halted driver is one whose record has ended. */
  datatype Driver = Driver(world: World, pendingReport: Option<SystemTime>, halted: bool)

  function TryReportWait(d: Driver, start: Instant, c: CycleInput): Driver {
    if d.pendingReport.None? then d
    else
      match WaitedForReboot(d.pendingReport.value, start, c.now)
      case None => d
      case Some(waited) =>
        var w1 := Emit(d.world, Report(WaitedForRebootDuration(waited)));
        var s := w1.store.Remove(UPDATE_FINISH_TIME, c.removeFaults).Remove(TARGET_VERSION, c.removeFaults);
        Driver(CommitStore(w1.(store := s), c.removeFaults), None, d.halted)
  }

  predicate Positive(d: CheckDecision) {
    d.CheckOk? || d.CheckOkUpdateDeferred?
  }

  /** The control requests served while the client is busy, and the options they leave. */
  function Served(arrivals: seq<CheckOptions>): seq<Act> {
    if arrivals == [] then []
    else Served(arrivals[..|arrivals| - 1]) + [Received(arrivals[|arrivals| - 1]), Replied(AlreadyRunning)]
  }

  function Upgraded(options: CheckOptions, arrivals: seq<CheckOptions>): CheckOptions {
    if arrivals == [] then options
    else if arrivals[|arrivals| - 1].source.OnDemand? then options.(source := OnDemand)
    else Upgraded(options, arrivals[..|arrivals| - 1])
  }

  /** The check while control requests come in: its own record, with theirs woven in. */
  function CheckWhileServing(env: Env, w: World, params: RequestParams, c: CycleInput): Out<RebootAfterUpdate> {
    var s := StartUpdateCheck(env, w.(log := []), params, c.check);
    Out(s.world.(log := w.log + Merge(s.world.log, Served(c.arrivals), c.pattern)), s.value)
  }

  const DEFAULT_OPTIONS := CheckOptions(ScheduledTask)

  function OptionsOf(wake: Wake): CheckOptions {
    if wake.Requested? then wake.options else DEFAULT_OPTIONS
  }

  /** Waiting for the next check, asking whether it is allowed, and answering who asked for it. */
  function AwaitCheck(w: World, c: CycleInput): World {
    var w1 := UpdateNextUpdateTime(w, c.timing);
    var w2 := if c.wake.Requested? then Emit(w1, Received(c.wake.options)) else w1;
    var w3 := Emit(w2, Query(UpdateCheckAllowed(OptionsOf(c.wake), c.decision)));
    if c.wake.Requested? then Emit(w3, Replied(if Positive(c.decision) then Started else Throttled)) else w3
  }

  /** The check and, if it asks for one, the reboot; false when the record ends in the wait for it. */
  function CheckAndReboot(env: Env, w: World, c: CycleInput): Out<bool>
    requires Positive(c.decision)
  {
    var s := CheckWhileServing(env, w, c.decision.params, c);
    match s.value
    case NotNeeded => Out(Emit(s.world, ChangeTo(Idle)), true)
    case Needed(installed) =>
      var w1 := Emit(s.world, ChangeTo(WaitingForReboot));
      var r := WaitForReboot(env, w1, Upgraded(OptionsOf(c.wake), c.arrivals), installed, c.reboot);
      if r.value && c.reboot.rebootReturns then Out(Emit(r.world, ChangeTo(Idle)), true) else Out(r.world, false)
  }

  /** One turn of the loop in `run`. */
  function RunCycle(env: Env, d: Driver, start: Instant, c: CycleInput): Driver {
    var d1 := TryReportWait(d, start, c);
    var w1 := AwaitCheck(d1.world, c);
    if !Positive(c.decision) then d1.(world := w1)
    else
      var s := CheckAndReboot(env, w1, c);
      Driver(s.world, d1.pendingReport, !s.value)
  }

  function RunCycles(env: Env, d: Driver, start: Instant, cycles: seq<CycleInput>): Driver
    decreases |cycles|
  {
    if cycles == [] || d.halted then d
    else RunCycles(env, RunCycle(env, d, start, cycles[0]), start, cycles[1..])
  }

  /** `StateMachineBuilder::build`, after a restart that lost what was not committed. */
  function Boot(env: Env, w: World, presets: seq<App>): World {
    var s := w.store.Restart();
    Emit(World(LoadContext(s), s, LoadApps(presets, s, env.codec), w.log), Booted)
  }

  function PendingReport(env: Env, s: Store): Option<SystemTime> {
    if s.GetString(TARGET_VERSION) == Some(env.config.os.version) then s.GetTime(UPDATE_FINISH_TIME) else None
  }

  /** One life of the process, from its start to the end of its inputs. */
  function Life(env: Env, w: World, b: BootInput): World {
    var w1 := Boot(env, w, b.presets);
    if !AllValid(w1.apps) then w1
    else RunCycles(env, Driver(w1, PendingReport(env, w1.store), false), b.start, b.cycles).world
  }

  /** The acts up to a commit, or all of them if there are fewer commits. */
  function UpToCommit(acts: seq<Act>, nth: nat): (n: nat)
    ensures n <= |acts|
    ensures n < |acts| ==> n > 0 && acts[n - 1].Committed?
  {
    if acts == [] then 0
    else if acts[0].Committed? && nth == 0 then 1
    else 1 + UpToCommit(acts[1..], if acts[0].Committed? then nth - 1 else nth)
  }

  function ActsOf(acts: seq<Act>, ending: Ending): (n: nat)
    ensures n <= |acts|
  {
    match ending
    case OfItself => |acts|
    case AfterCommit(nth) => UpToCommit(acts, nth)
    case Anywhere(n) => if n <= |acts| then n else |acts|
  }

  /** What is durable after some acts. */
  function LastCommitted(durable: map<string, Value>, acts: seq<Act>): map<string, Value> {
    if acts == [] then durable
    else
      match acts[|acts| - 1]
      case Committed(m) => m
      case _ => LastCommitted(durable, acts[..|acts| - 1])
  }

  /** The end of a life in its midst: memory is lost, and storage is what was committed last. */
  function CutShort(w: World, v: World, n: nat): World
    requires n <= |v.log|
  {
    var m := LastCommitted(w.store.durable, v.log[..n]);
    World(LoadContext(Store(m, m)), Store(m, m), v.apps, v.log[..n])
  }

  /** One life of the process, from its start to its end. */
  function RunBoot(env: Env, w: World, b: BootInput): World {
    var alone := w.(log := []);
    var v := Life(env, alone, b);
    var n := ActsOf(v.log, b.ending);
    var u := if n == |v.log| then v else CutShort(alone, v, n);
    u.(log := w.log + u.log)
  }

  /** Any number of lives, one after the other on the same storage. */
  function History(env: Env, w: World, boots: seq<BootInput>): World
    decreases |boots|
  {
    if boots == [] then w else History(env, RunBoot(env, w, boots[0]), boots[1..])
  }
}
