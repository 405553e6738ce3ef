/** What a turn of the loop shows around its check: the report about the reboot before, the wait for the check,
    and the wait for the reboot after it. */
module Waits {
  import opened Wrappers
  import opened Clock
  import opened Protocol
  import opened CheckContext
  import opened Trace
  import opened UpdateFlow
  import opened ClientRun
  import opened Observers
  import opened Retry

  /** The waits and what decides about them. */
  predicate OfWaits(a: Act) {
    || (a.Query? && (a.query.NextUpdateTime? || a.query.UpdateCheckAllowed? || a.query.RebootAllowed?))
    || (a.Waited? && (a.wait.ForReboot? || a.wait.ForNextCheck?))
    || (a.Report? && a.metrics.WaitedForRebootDuration?)
    || (a.Yield? && a.event.StateChange? && (a.event.state.Idle? || a.event.state.WaitingForReboot?))
    || a.PerformReboot?
  }

  function Watch(seen: seq<Act>, a: Act): seq<Act> {
    if OfWaits(a) then seen + [a] else seen
  }

  // The script of a turn

  /** The policy names the time and the client waits for it. */
  function NextCheck(timing: CheckTiming): seq<Act> {
    [Query(NextUpdateTime(timing)), Waited(ForNextCheck(timing))]
  }

  /** Half an hour. */
  const RECHECK := Waited(ForReboot(1_800_000_000_000))

  /** The rounds of waiting for a reboot, until one of them allows it: the policy is asked again every half
      hour, and at once when somebody asks for an update on demand; pings are made in between. */
  function RoundsScript(options: CheckOptions, installed: InstallResult, steps: seq<RebootStep>): seq<Act>
    decreases |steps|
  {
    if steps == [] then []
    else
      match steps[0]
      case RecheckDue(true) => [Query(RebootAllowed(options, installed, true)), PerformReboot]
      case RecheckDue(false) =>
        [Query(RebootAllowed(options, installed, false)), RECHECK] + RoundsScript(options, installed, steps[1..])
      case PingDue(_, timing) => NextCheck(timing) + RoundsScript(options, installed, steps[1..])
      case AskedToCheck(CheckOptions(ScheduledTask), _) => RoundsScript(options, installed, steps[1..])
      case AskedToCheck(CheckOptions(OnDemand), true) =>
        [Query(RebootAllowed(CheckOptions(OnDemand), installed, true)), PerformReboot]
      case AskedToCheck(CheckOptions(OnDemand), false) =>
        [Query(RebootAllowed(CheckOptions(OnDemand), installed, false))]
        + RoundsScript(CheckOptions(OnDemand), installed, steps[1..])
  }

  function RebootScript(options: CheckOptions, installed: InstallResult, r: RebootInput): seq<Act> {
    [Query(RebootAllowed(options, installed, r.allowedAtOnce))]
    + if r.allowedAtOnce then [PerformReboot]
      else [RECHECK] + NextCheck(r.timing) + RoundsScript(options, installed, r.steps)
  }

  /** The time from the finish of the update to the start after the reboot, when both clocks allow to tell. */
  function RebootReport(finish: Option<SystemTime>, start: Instant, now: ComplexTime): seq<Act> {
    if finish.None? || now.wall < finish.value || now.mono < start
       || now.wall - finish.value < now.mono - start then []
    else [Report(WaitedForRebootDuration(now.wall - finish.value - (now.mono - start)))]
  }

  /** The options of a check: those it was asked for with, and otherwise that it is scheduled. */
  function AskedWith(wake: Wake): CheckOptions {
    match wake
    case Requested(options) => options
    case TimerFired => CheckOptions(ScheduledTask)
  }

  /** The policy lets the check go ahead. */
  predicate LetsCheck(decision: CheckDecision) {
    match decision
    case CheckOk(_) => true
    case CheckOkUpdateDeferred(_) => true
    case TooSoon => false
    case ThrottledByPolicy => false
    case CheckDeniedByPolicy => false
  }

  /** On demand if it began so or somebody asked on demand meanwhile. */
  function RaisedBy(options: CheckOptions, arrivals: seq<CheckOptions>): CheckOptions {
    if CheckOptions(OnDemand) in arrivals then CheckOptions(OnDemand) else options
  }

  /** A turn, given the installation that wants a reboot after its check, if there is one. */
  function TurnScript(d: Driver, start: Instant, c: CycleInput, wanted: RebootAfterUpdate, rebooted: bool): seq<Act> {
    RebootReport(d.pendingReport, start, c.now) + AroundCheck(c, wanted, rebooted)
  }

  function AroundCheck(c: CycleInput, wanted: RebootAfterUpdate, rebooted: bool): seq<Act> {
    NextCheck(c.timing)
    + [Query(UpdateCheckAllowed(AskedWith(c.wake), c.decision))]
    + if !LetsCheck(c.decision) then []
      else
        (match wanted
         case NotNeeded => []
         case Needed(installed) =>
           [Yield(StateChange(WaitingForReboot))]
           + RebootScript(RaisedBy(AskedWith(c.wake), c.arrivals), installed, c.reboot))
        + if wanted.NotNeeded? || (rebooted && c.reboot.rebootReturns) then [Yield(StateChange(Idle))] else []
  }

  /** The reboot was allowed at once or in some round. */
  predicate Allows(step: RebootStep) {
    match step
    case RecheckDue(allowed) => allowed
    case PingDue(_, _) => false
    case AskedToCheck(asked, allowed) => asked.source == OnDemand && allowed
  }

  predicate EndsAllowed(r: RebootInput) {
    r.allowedAtOnce || exists k :: 0 <= k < |r.steps| && Allows(r.steps[k])
  }

  // The client follows it

  lemma NextTimeWatched(q: seq<Act>, w: World, timing: CheckTiming)
    ensures Fold(Watch, q, UpdateNextUpdateTime(w, timing).log) == Fold(Watch, q, w.log) + NextCheck(timing)
  {
    hide Fold;
    EmitFolds(Watch, q);
  }

  lemma RoundWatched(
    q: seq<Act>, env: Env, w: World, options: CheckOptions, installed: InstallResult, step: RebootStep)
    ensures var r := RebootRound(env, w, options, installed, step);
            && r.allowed == Allows(step)
            && Fold(Watch, q, r.world.log) + (if r.allowed then [PerformReboot] else [])
               == Fold(Watch, q, w.log) + RoundsScript(options, installed, [step])
            && r.options == (if step.AskedToCheck? && step.options.source == OnDemand then CheckOptions(OnDemand)
                             else options)
  {
    hide Fold, PingOmaha, UpdateNextUpdateTime;
    EmitFolds(Watch, q);
    assert [step][1..] == [];
    if step.PingDue? {
      PingUnseen(Watch, q, env, w, step.ping);
      NextTimeWatched(q, PingOmaha(env, w, step.ping), step.timing);
    }
  }

  lemma RoundsGoOn(options: CheckOptions, installed: InstallResult, steps: seq<RebootStep>)
    requires steps != []
    ensures RoundsScript(options, installed, steps) ==
            RoundsScript(options, installed, [steps[0]])
            + if Allows(steps[0]) then []
              else RoundsScript(if steps[0].AskedToCheck? && steps[0].options.source == OnDemand
                                then CheckOptions(OnDemand) else options, installed, steps[1..])
  {
    assert [steps[0]][1..] == [];
  }

  lemma {:induction false} LoopWatched(
    q: seq<Act>, env: Env, w: World, options: CheckOptions, installed: InstallResult, steps: seq<RebootStep>)
    ensures var s := RebootLoop(env, w, options, installed, steps);
            && Fold(Watch, q, s.world.log) == Fold(Watch, q, w.log) + RoundsScript(options, installed, steps)
            && (s.value <==> exists k :: 0 <= k < |steps| && Allows(steps[k]))
    decreases |steps|
  {
    hide Fold, RebootRound, RoundsScript;
    EmitFolds(Watch, q);
    if steps == [] {
      NoRounds(options, installed);
    } else {
      RoundWatched(q, env, w, options, installed, steps[0]);
      RoundsGoOn(options, installed, steps);
      var r := RebootRound(env, w, options, installed, steps[0]);
      var before, round := Fold(Watch, q, w.log), RoundsScript(options, installed, [steps[0]]);
      if r.allowed {
        assert Fold(Watch, q, Emit(r.world, PerformReboot).log) == before + round;
      } else {
        LoopWatched(q, env, r.world, r.options, installed, steps[1..]);
        assert forall k :: 1 <= k < |steps| ==> steps[k] == steps[1..][k - 1];
        var rest := RoundsScript(r.options, installed, steps[1..]);
        assert Fold(Watch, q, r.world.log) == before + round;
        assert before + round + rest == before + (round + rest);
      }
    }
  }

  lemma NoRounds(options: CheckOptions, installed: InstallResult)
    ensures RoundsScript(options, installed, []) == []
  {
  }

  /** The wait for a reboot is this script, and ends with the reboot exactly when some answer allows it. */
  lemma WaitFollowsScript(
    q: seq<Act>, env: Env, w: World, options: CheckOptions, installed: InstallResult, r: RebootInput)
    ensures var s := WaitForReboot(env, w, options, installed, r);
            && Fold(Watch, q, s.world.log) == Fold(Watch, q, w.log) + RebootScript(options, installed, r)
            && s.value == EndsAllowed(r)
  {
    hide Fold, RebootLoop, RoundsScript, UpdateNextUpdateTime, Allows;
    EmitFolds(Watch, q);
    if !r.allowedAtOnce {
      var w1 := Emit(w, Query(RebootAllowed(options, installed, r.allowedAtOnce)));
      var w2 := Emit(w1, RECHECK);
      NextTimeWatched(q, w2, r.timing);
      LoopWatched(q, env, UpdateNextUpdateTime(w2, r.timing), options, installed, r.steps);
    }
  }

  lemma {:induction false} ServedUnwatched(arrivals: seq<CheckOptions>)
    ensures forall a, p :: a in Served(arrivals) ==> Watch(p, a) == p
  {
    if arrivals != [] {
      ServedUnwatched(arrivals[..|arrivals| - 1]);
    }
  }

  lemma CheckUnwatched(q: seq<Act>, env: Env, w: World, params: RequestParams, c: CycleInput)
    ensures Fold(Watch, q, CheckWhileServing(env, w, params, c).world.log) == Fold(Watch, q, w.log)
  {
    hide StartUpdateCheck, Served, Merge, Fold;
    var now := Fold(Watch, q, w.log);
    var s := StartUpdateCheck(env, w.(log := []), params, c.check);
    FoldEmpty(Watch, now);
    StartUpdateCheckUnseen(Watch, now, env, w.(log := []), params, c.check);
    ServedUnwatched(c.arrivals);
    FoldMerge(Watch, now, s.world.log, Served(c.arrivals), c.pattern);
    FoldConcat(Watch, q, w.log, Merge(s.world.log, Served(c.arrivals), c.pattern));
  }

  lemma {:induction false} UpgradedIsRaised(options: CheckOptions, arrivals: seq<CheckOptions>)
    ensures Upgraded(options, arrivals) == RaisedBy(options, arrivals)
  {
    if arrivals != [] {
      var before, last := arrivals[..|arrivals| - 1], arrivals[|arrivals| - 1];
      UpgradedIsRaised(options, before);
      assert arrivals == before + [last];
      assert last.source.OnDemand? ==> last == CheckOptions(OnDemand);
    }
  }

  lemma AwaitWatched(q: seq<Act>, w: World, c: CycleInput)
    ensures Fold(Watch, q, AwaitCheck(w, c).log) == Fold(Watch, q, w.log) + NextCheck(c.timing)
            + [Query(UpdateCheckAllowed(AskedWith(c.wake), c.decision))]
  {
    hide Fold, UpdateNextUpdateTime;
    EmitFolds(Watch, q);
    NextTimeWatched(q, w, c.timing);
  }

  lemma ReportWatched(q: seq<Act>, d: Driver, start: Instant, c: CycleInput)
    ensures Fold(Watch, q, TryReportWait(d, start, c).world.log)
         == Fold(Watch, q, d.world.log) + RebootReport(d.pendingReport, start, c.now)
  {
    hide Fold;
    EmitFolds(Watch, q);
  }

  lemma RebootWatched(q: seq<Act>, env: Env, w: World, c: CycleInput)
    requires Positive(c.decision)
    ensures var wanted := CheckWhileServing(env, w, c.decision.params, c).value;
            var s := CheckAndReboot(env, w, c);
            Fold(Watch, q, s.world.log) == Fold(Watch, q, w.log)
              + (match wanted
                 case NotNeeded => []
                 case Needed(installed) =>
                   [Yield(StateChange(WaitingForReboot))]
                   + RebootScript(RaisedBy(AskedWith(c.wake), c.arrivals), installed, c.reboot))
              + if wanted.NotNeeded? || (EndsAllowed(c.reboot) && c.reboot.rebootReturns)
                then [Yield(StateChange(Idle))] else []
  {
    hide Fold, CheckWhileServing, WaitForReboot, RebootScript, EndsAllowed, Upgraded, RaisedBy;
    EmitFolds(Watch, q);
    CheckUnwatched(q, env, w, c.decision.params, c);
    UpgradedIsRaised(OptionsOf(c.wake), c.arrivals);
    var s := CheckWhileServing(env, w, c.decision.params, c);
    if s.value.Needed? {
      var w1 := Emit(s.world, ChangeTo(WaitingForReboot));
      WaitFollowsScript(q, env, w1, Upgraded(OptionsOf(c.wake), c.arrivals), s.value.installResult, c.reboot);
    }
  }

  /** Around its check a turn is this script: the report about the reboot before, the wait for the check, the
      policy's decision, and if the check wants a reboot the wait for it; then the client is idle, unless the
      reboot is still being waited for or does not return. */
  lemma TurnFollowsScript(q: seq<Act>, env: Env, d: Driver, start: Instant, c: CycleInput)
    ensures var w := AwaitCheck(TryReportWait(d, start, c).world, c);
            var wanted := if Positive(c.decision) then CheckWhileServing(env, w, c.decision.params, c).value
                          else NotNeeded;
            Fold(Watch, q, RunCycle(env, d, start, c).world.log)
            == Fold(Watch, q, d.world.log) + TurnScript(d, start, c, wanted, EndsAllowed(c.reboot))
  {
    hide Fold, CheckWhileServing, CheckAndReboot, AwaitCheck, TryReportWait, RebootScript, RebootReport, EndsAllowed,
      NextCheck, RaisedBy;
    ReportWatched(q, d, start, c);
    var d1 := TryReportWait(d, start, c);
    AwaitWatched(q, d1.world, c);
    if Positive(c.decision) {
      RebootWatched(q, env, AwaitCheck(d1.world, c), c);
    }
  }

  // The traffic of a turn

  lemma {:induction false} ServedUnnoticed(arrivals: seq<CheckOptions>)
    ensures forall a, p :: a in Served(arrivals) ==> Notice(p, a) == p
  {
    if arrivals != [] {
      ServedUnnoticed(arrivals[..|arrivals| - 1]);
    }
  }

  lemma {:induction false} NoticeShifts(q: seq<Act>, log: seq<Act>)
    ensures Fold(Notice, q, log) == q + Fold(Notice, [], log)
  {
    if log != [] {
      NoticeShifts(q, log[..|log| - 1]);
    }
  }

  lemma ServingNoticed(env: Env, w: World, params: RequestParams, c: CycleInput, n: nat)
    requires StopsAt(w.context.state.serverDictatedPollInterval, c.check.attempts, n)
    ensures Fold(Notice, [], CheckWhileServing(env, w, params, c).world.log)
         == Fold(Notice, [], w.log) + TrafficOf(env, params, CheckOps(w.apps), c.check, n)
  {
    hide StartUpdateCheck, Served, Merge, Fold, TrafficOf, StopsAt;
    var now := Fold(Notice, [], w.log);
    var s := StartUpdateCheck(env, w.(log := []), params, c.check);
    CheckFollowsScript(env, w.(log := []), params, c.check, n);
    NoticeShifts(now, s.world.log);
    ServedUnnoticed(c.arrivals);
    FoldMerge(Notice, now, s.world.log, Served(c.arrivals), c.pattern);
    FoldConcat(Notice, [], w.log, Merge(s.world.log, Served(c.arrivals), c.pattern));
  }

  lemma RoundUnnoticed(env: Env, w: World, options: CheckOptions, installed: InstallResult, step: RebootStep)
    ensures Fold(Notice, [], RebootRound(env, w, options, installed, step).world.log) == Fold(Notice, [], w.log)
  {
    hide Fold, PingOmaha;
    EmitFolds(Notice, []);
    if step.PingDue? {
      PingUnseen(Notice, [], env, w, step.ping);
    }
  }

  lemma {:induction false} LoopUnnoticed(
    env: Env, w: World, options: CheckOptions, installed: InstallResult, steps: seq<RebootStep>)
    ensures Fold(Notice, [], RebootLoop(env, w, options, installed, steps).world.log) == Fold(Notice, [], w.log)
    decreases |steps|
  {
    hide Fold, RebootRound;
    EmitFolds(Notice, []);
    if steps != [] {
      RoundUnnoticed(env, w, options, installed, steps[0]);
      var r := RebootRound(env, w, options, installed, steps[0]);
      if !r.allowed {
        LoopUnnoticed(env, r.world, r.options, installed, steps[1..]);
      }
    }
  }

  lemma WaitUnnoticed(env: Env, w: World, options: CheckOptions, installed: InstallResult, r: RebootInput)
    ensures Fold(Notice, [], WaitForReboot(env, w, options, installed, r).world.log) == Fold(Notice, [], w.log)
  {
    hide Fold, RebootLoop;
    EmitFolds(Notice, []);
    if !r.allowedAtOnce {
      var w2 := Emit(Emit(w, Query(RebootAllowed(options, installed, false))), RECHECK);
      LoopUnnoticed(env, UpdateNextUpdateTime(w2, r.timing), options, installed, r.steps);
    }
  }

  lemma RebootNoticed(env: Env, w: World, c: CycleInput, n: nat)
    requires Positive(c.decision)
    requires StopsAt(w.context.state.serverDictatedPollInterval, c.check.attempts, n)
    ensures Fold(Notice, [], CheckAndReboot(env, w, c).world.log)
         == Fold(Notice, [], w.log) + TrafficOf(env, c.decision.params, CheckOps(w.apps), c.check, n)
  {
    hide Fold, CheckWhileServing, WaitForReboot, Upgraded, TrafficOf, StopsAt;
    EmitFolds(Notice, []);
    ServingNoticed(env, w, c.decision.params, c, n);
    var s := CheckWhileServing(env, w, c.decision.params, c);
    if s.value.Needed? {
      var w1 := Emit(s.world, ChangeTo(WaitingForReboot));
      WaitUnnoticed(env, w1, Upgraded(OptionsOf(c.wake), c.arrivals), s.value.installResult, c.reboot);
    }
  }

  lemma AwaitUnnoticed(d: Driver, start: Instant, c: CycleInput)
    ensures var w := AwaitCheck(TryReportWait(d, start, c).world, c);
            && Fold(Notice, [], w.log) == Fold(Notice, [], d.world.log)
            && w.apps == d.world.apps && w.context.state == d.world.context.state
  {
    hide Fold;
    EmitFolds(Notice, []);
  }

  /** A turn asks the server for updates if and only if the policy lets the check go ahead; then its traffic is
      that of a check of the client's apps with the very parameters that the policy returned, however control
      requests come in meanwhile and however long the reboot is waited for. */
  lemma TurnAsksAsAllowed(env: Env, d: Driver, start: Instant, c: CycleInput, n: nat)
    requires StopsAt(d.world.context.state.serverDictatedPollInterval, c.check.attempts, n)
    ensures Fold(Notice, [], RunCycle(env, d, start, c).world.log) == Fold(Notice, [], d.world.log)
            + (match c.decision
               case CheckOk(params) => TrafficOf(env, params, CheckOps(d.world.apps), c.check, n)
               case CheckOkUpdateDeferred(params) => TrafficOf(env, params, CheckOps(d.world.apps), c.check, n)
               case _ => [])
  {
    hide Fold, CheckAndReboot, AwaitCheck, TryReportWait, TrafficOf, StopsAt;
    AwaitUnnoticed(d, start, c);
    if Positive(c.decision) {
      RebootNoticed(env, AwaitCheck(TryReportWait(d, start, c).world, c), c, n);
    }
  }

  /** What the client does after the wait for a check, and where it stands: the policy's time is in the schedule
      that is announced, and everything else is as it was. */
  lemma AwaitAnnounces(w: World, c: CycleInput)
    ensures var v := AwaitCheck(w, c);
            && v == w.(context := v.context, log := v.log)
            && v.context == w.context.(schedule := w.context.schedule.(nextUpdateTime := Some(c.timing)))
            && |v.log| > |w.log| + 2
            && v.log[..|w.log| + 3] == w.log + [Query(NextUpdateTime(c.timing)),
                                                Yield(ScheduleChange(v.context.schedule)),
                                                Waited(ForNextCheck(c.timing))]
  {
  }
}
