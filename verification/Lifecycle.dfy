/** The shape of every run: what states an observer sees, in which order, and when a reboot may come. */
module Lifecycle {
  import opened Wrappers
  import opened MachineInts
  import opened Protocol
  import opened CheckContext
  import opened AppSet
  import opened RequestBuilder
  import opened Trace
  import opened UpdateFlow
  import opened ClientRun
  import opened Observers
  import opened Clock
  import InstallResults

  /** What is shown of a cycle: its states, and the result of its check. */
  datatype Shown = InState(state: State) | Told(success: bool)

  datatype Stage =
    | Resting
    | Asking
    | Failing
    | Declining(answer: State)
    | Starting
    | Finished(plan: Plan, installResult: InstallResult, clean: bool, needed: bool)
    | Faulty
    | Done
    | RebootWanted(wanted: InstallResult)
    | AwaitingReboot(awaited: InstallResult, granted: bool)
    | Rebooting

  datatype Life = Life(stage: Stage, shown: seq<Shown>) | Violated

  const REST := Life(Resting, [])

  function ShowState(l: Life, s: State): Life
    requires l.Life?
  {
    var shown := l.shown + [InState(s)];
    match (l.stage, s)
    case (Resting, CheckingForUpdates(_)) => Life(Asking, shown)
    case (Asking, ErrorCheckingForUpdate) => Life(Failing, shown)
    case (Asking, NoUpdateAvailable) => Life(Declining(s), shown)
    case (Asking, InstallationDeferredByPolicy) => Life(Declining(s), shown)
    case (Asking, InstallingUpdate) => Life(Starting, shown)
    case (Starting, InstallationError) => Life(Faulty, shown)
    case (Finished(_, _, clean, _), InstallationError) => if clean then Violated else Life(Faulty, shown)
    case (RebootWanted(installed), WaitingForReboot) => Life(AwaitingReboot(installed, false), shown)
    case (Done, Idle) => REST
    case (Rebooting, Idle) => REST
    case _ => Violated
  }

  function ShowResult(l: Life, success: bool): Life
    requires l.Life?
  {
    var shown := l.shown + [Told(success)];
    match l.stage
    case Asking => if success then Life(Done, shown) else Violated
    case Failing => if success then Violated else Life(Done, shown)
    case Declining(_) => if success then Life(Done, shown) else Violated
    case Finished(_, installed, clean, needed) =>
      if !success || !clean then Violated
      else Life(if needed then RebootWanted(installed) else Done, shown)
    case Faulty => Life(Done, shown)
    case _ => Violated
  }

  /** A permission to reboot lasts until the policy is asked something else. */
  function NextLife(l: Life, a: Act): Life {
    if l.Violated? then l
    else
      match a
      case Yield(StateChange(s)) => ShowState(l, s)
      case Yield(UpdateCheckResult(r)) => ShowResult(l, r.Success?)
      case PerformedInstall(plan, installed, results) =>
        if l.stage == Starting then l.(stage := Finished(plan, installed, NoAppsFailed(results), false)) else Violated
      case Query(NextUpdateTime(_)) =>
        if l.stage.AwaitingReboot? then l.(stage := l.stage.(granted := false))
        else if l.stage == Resting then l else Violated
      case Query(UpdateCheckAllowed(_, _)) => if l.stage == Resting then l else Violated
      case Query(UpdateCanStart(_, _)) => if l.stage == Asking then l else Violated
      case Query(RebootNeeded(plan, needed)) =>
        if l.stage.Finished? && l.stage.plan == plan && l.stage.clean then l.(stage := l.stage.(needed := needed))
        else Violated
      case Query(RebootAllowed(_, installed, allowed)) =>
        if l.stage.AwaitingReboot? && l.stage.awaited == installed then
          l.(stage := AwaitingReboot(installed, allowed))
        else Violated
      case PerformReboot =>
        if l.stage.AwaitingReboot? && l.stage.granted then l.(stage := Rebooting) else Violated
      case _ => l
  }

  // The client keeps these rules

  predicate In(l: Life, stage: Stage) {
    l.Life? && l.stage == stage
  }

  lemma {:induction false} AttemptsLive(
    q: Life, env: Env, w: World, params: RequestParams, apps: seq<App>, ops: seq<Op>, i: CheckInput, k: nat)
    requires 1 <= k <= MAX_OMAHA_REQUEST_ATTEMPTS && OpsFrom(apps, ops)
    requires In(Fold(NextLife, q, w.log), Asking)
    ensures var s := AttemptLoop(env, w, params, ops, i, k);
            In(Fold(NextLife, q, s.world.log), if s.value.1.Success? then Asking else Failing)
    decreases MAX_OMAHA_REQUEST_ATTEMPTS - k
  {
    hide Fold, Attempt, BackoffMillis;
    EmitFolds(NextLife, q);
    AttemptUnseen(NextLife, q, env, w, params, apps, ops, i, k);
    var s := Attempt(env, w, params, ops, i, k);
    if Retries(s.value, k, s.world.context.state.serverDictatedPollInterval) {
      var w1 := Emit(s.world, Waited(Backoff(BackoffMillis(k, i.attempts.At(k).random))));
      AttemptsLive(q, env, w1, params, apps, ops, i, k + 1);
    }
  }

  /** What the record shows when a check is over, by what the check returned. */
  predicate Matches(l: Life, p: Performed) {
    l.Life? &&
    match p
    case Failure(_) => l.stage == Failing || l.stage == Faulty
    case Success((_, NotNeeded)) =>
      || l.stage == Asking || l.stage.Declining? || l.stage == Faulty
      || (l.stage.Finished? && l.stage.clean && !l.stage.needed)
    case Success((_, Needed(installed))) =>
      l.stage.Finished? && l.stage.clean && l.stage.needed && l.stage.installResult == installed
  }

  lemma FinishLives(
    q: Life, w: World, plan: Plan, r: Response, outcome: InstallOutcome, since: SystemTime, i: CheckInput)
    requires |outcome.results| == CountUpdates(r.apps)
    requires In(Fold(NextLife, q, w.log),
                Finished(plan, outcome.installResult, NoAppsFailed(outcome.results), false))
    ensures var s := FinishInstall(w, plan, r, outcome, since, i);
            Matches(Fold(NextLife, q, s.world.log), s.value)
  {
    hide Fold, WalkResults, ErrorsOf, VersionsOf, AppsWithUpdate;
    EmitFolds(NextLife, q);
    InstallResults.ErrorsAreTheFailures(outcome.results);
    EmitAllUnseen(NextLife, q, w, ErrorActs(ErrorsOf(outcome.results)));
  }

  lemma InstallLives(
    q: Life, env: Env, w: World, params: RequestParams, apps: seq<App>, plan: Plan, r: Response, i: CheckInput)
    requires In(Fold(NextLife, q, w.log), Asking)
    ensures var s := InstallUpdate(env, w, params, apps, plan, r, i);
            Matches(Fold(NextLife, q, s.world.log), s.value)
  {
    hide Fold, ReportEvent, RecordFirstSeen, ReportInstalls, FinishInstall, VersionsOf, AppsWithUpdate, NoAppsFailed;
    EmitFolds(NextLife, q);
    var versions := VersionsOf(AppsWithUpdate(r.apps));
    var w1 := Emit(w, ChangeTo(InstallingUpdate));
    var started := SuccessEvent(UpdateDownloadStarted);
    ReportEventUnseen(NextLife, q, env, w1, params, started, apps, i.sessionId, versions, None, i.events.first);
    var w2 := ReportEvent(env, w1, params, started, apps, i.sessionId, versions, None, i.events.first);
    RecordFirstSeenLives(q, w2, plan.id, i.installStart, i.seenFaults);
    var seen := RecordFirstSeen(w2, plan.id, i.installStart, i.seenFaults);
    var outcome := i.install(r);
    EmitAllUnseen(NextLife, q, seen.world, ProgressActs(outcome.progress));
    var w3 := EmitAll(seen.world, ProgressActs(outcome.progress));
    var w4 := Emit(w3, PerformedInstall(plan, outcome.installResult, outcome.results));
    var w5 := ReportInstallDuration(w4, i.installStart, i.installFinish, NoAppsFailed(outcome.results));
    var d := InstallDuration(i.installStart, i.installFinish);
    ReportInstallsUnseen(NextLife, q, env, w5, params, apps, r, outcome.results, d, i);
    var w6 := ReportInstalls(env, w5, params, apps, r, outcome.results, d, i);
    CountAppsWithUpdate(r.apps);
    FinishLives(q, w6, plan, r, outcome, seen.value, i);
  }

  lemma RecordFirstSeenLives(q: Life, w: World, planId: string, now: SystemTime, faults: SeenFaults)
    ensures Fold(NextLife, q, RecordFirstSeen(w, planId, now, faults).world.log) == Fold(NextLife, q, w.log)
  {
    hide Fold;
    EmitFolds(NextLife, q);
  }

  lemma HandleResponseLives(
    q: Life, env: Env, w: World, params: RequestParams, apps: seq<App>, r: Response, i: CheckInput)
    requires In(Fold(NextLife, q, w.log), Asking)
    ensures var s := HandleResponse(env, w, params, apps, r, i);
            Matches(Fold(NextLife, q, s.world.log), s.value)
  {
    hide Fold, ReportEvent, InstallUpdate, VersionsOf, AppsWithUpdate, SameAction;
    EmitFolds(NextLife, q);
    var w1 := Emit(w, Yield(OmahaServerResponse(r)));
    var versions := VersionsOf(AppsWithUpdate(r.apps));
    match i.plan {
      case None =>
        var w2 := Emit(Emit(w1, ChangeTo(InstallingUpdate)), ChangeTo(InstallationError));
        ReportEventUnseen(NextLife, q, env, w2, params, ErrorEvent(ConstructInstallPlan), apps, i.sessionId, versions,
                          None, i.events.first);
      case Some(plan) =>
        var w2 := Emit(w1, Query(UpdateCanStart(plan, i.planDecision)));
        ReportEventUnseen(NextLife, q, env, w2, params, DEFERRED_EVENT, apps, i.sessionId, versions, None,
                          i.events.first);
        ReportEventUnseen(NextLife, q, env, w2, params, ErrorEvent(DeniedByPolicy), apps, i.sessionId, versions, None,
                          i.events.first);
        if i.planDecision.UpdateOk? {
          InstallLives(q, env, w2, params, apps, plan, r, i);
        }
    }
  }

  lemma PerformLives(q: Life, env: Env, w: World, params: RequestParams, apps: seq<App>, i: CheckInput)
    requires In(Fold(NextLife, q, w.log), Resting)
    ensures var s := PerformUpdateCheck(env, w, params, apps, i);
            Matches(Fold(NextLife, q, s.world.log), s.value)
  {
    hide Fold, AttemptLoop, HandleResponse, ReportEvent, CheckOps, NoVersions;
    EmitFolds(NextLife, q);
    var w1 := Emit(w, ChangeTo(CheckingForUpdates(params.source)));
    var w2 := ReportCheckInterval(w1, i.checkTime, params.source);
    CheckOpsFrom(apps);
    AttemptsLive(q, env, w2, params, apps, CheckOps(apps), i, 1);
    var s := AttemptLoop(env, w2, params, CheckOps(apps), i, 1);
    var w3 := Emit(s.world, Report(RequestsPerCheck(s.value.0, s.value.1.Success?)));
    match s.value.1 {
      case Failure(_) =>
      case Success(Malformed) =>
        var w4 := Emit(w3, ChangeTo(ErrorCheckingForUpdate));
        ReportEventUnseen(NextLife, q, env, w4, params, ErrorEvent(ParseResponse), apps, i.sessionId, NoVersions(apps),
                          None, i.events.first);
      case Success(Parsed(r)) =>
        HandleResponseLives(q, env, w3, params, apps, r, i);
    }
  }

  lemma TakeResultLives(q: Life, w: World, p: Performed, i: CheckInput)
    ensures Fold(NextLife, q, TakeResult(w, p, i).log) == Fold(NextLife, q, w.log)
  {
    hide Fold, InstallVerdict, UpdateApps, WrapI64, WrapU32, WrapU64, ReasonOf;
    EmitFolds(NextLife, q);
  }

  lemma CheckLives(q: Life, env: Env, w: World, params: RequestParams, i: CheckInput)
    requires In(Fold(NextLife, q, w.log), Resting)
    ensures var s := StartUpdateCheck(env, w, params, i);
            In(Fold(NextLife, q, s.world.log),
               if s.value.Needed? then RebootWanted(s.value.installResult) else Done)
  {
    hide Fold, PerformUpdateCheck, PersistData, TakeResult;
    EmitFolds(NextLife, q);
    PerformLives(q, env, w, params, w.apps, i);
    var s := PerformUpdateCheck(env, w, params, w.apps, i);
    TakeResultLives(q, s.world, s.value, i);
    var w1 := TakeResult(s.world, s.value, i);
    var w2 := Emit(w1, Yield(ScheduleChange(w1.context.schedule)));
    var w3 := Emit(w2, Yield(ProtocolStateChange(w2.context.state)));
    var w4 := Emit(w3, Yield(UpdateCheckResult(ResultOf(s.value))));
    PersistDataUnseen(NextLife, q, env, w4, i.persistFaults);
  }

  lemma {:induction false} ServedUnseen(arrivals: seq<CheckOptions>)
    ensures forall a, p :: a in Served(arrivals) ==> NextLife(p, a) == p
  {
    if arrivals != [] {
      ServedUnseen(arrivals[..|arrivals| - 1]);
    }
  }

  lemma CheckWhileServingLives(q: Life, env: Env, w: World, params: RequestParams, c: CycleInput)
    requires In(Fold(NextLife, q, w.log), Resting)
    ensures var s := CheckWhileServing(env, w, params, c);
            In(Fold(NextLife, q, s.world.log),
               if s.value.Needed? then RebootWanted(s.value.installResult) else Done)
  {
    hide StartUpdateCheck, Served, Merge, Fold;
    var now := Fold(NextLife, q, w.log);
    var s := StartUpdateCheck(env, w.(log := []), params, c.check);
    FoldEmpty(NextLife, now);
    CheckLives(now, env, w.(log := []), params, c.check);
    ServedUnseen(c.arrivals);
    FoldMerge(NextLife, now, s.world.log, Served(c.arrivals), c.pattern);
    FoldConcat(NextLife, q, w.log, Merge(s.world.log, Served(c.arrivals), c.pattern));
  }

  predicate Awaiting(l: Life, installed: InstallResult) {
    l.Life? && l.stage.AwaitingReboot? && l.stage.awaited == installed
  }

  lemma NextTimeLives(q: Life, w: World, timing: CheckTiming, installed: InstallResult)
    requires Awaiting(Fold(NextLife, q, w.log), installed)
    ensures Awaiting(Fold(NextLife, q, UpdateNextUpdateTime(w, timing).log), installed)
  {
    hide Fold;
    EmitFolds(NextLife, q);
  }

  lemma RebootRoundLives(
    q: Life, env: Env, w: World, options: CheckOptions, installed: InstallResult, step: RebootStep)
    requires Awaiting(Fold(NextLife, q, w.log), installed)
    ensures var r := RebootRound(env, w, options, installed, step);
            var l := Fold(NextLife, q, r.world.log);
            Awaiting(l, installed) && (r.allowed ==> l.stage.granted)
  {
    hide Fold, PingOmaha, UpdateNextUpdateTime;
    EmitFolds(NextLife, q);
    if step.PingDue? {
      PingUnseen(NextLife, q, env, w, step.ping);
      NextTimeLives(q, PingOmaha(env, w, step.ping), step.timing, installed);
    }
  }

  lemma {:induction false} RebootLoopLives(
    q: Life, env: Env, w: World, options: CheckOptions, installed: InstallResult, steps: seq<RebootStep>)
    requires Awaiting(Fold(NextLife, q, w.log), installed)
    ensures var r := RebootLoop(env, w, options, installed, steps);
            var l := Fold(NextLife, q, r.world.log);
            if r.value then In(l, Rebooting) else Awaiting(l, installed)
    decreases |steps|
  {
    hide Fold, RebootRound;
    EmitFolds(NextLife, q);
    if steps != [] {
      RebootRoundLives(q, env, w, options, installed, steps[0]);
      var r := RebootRound(env, w, options, installed, steps[0]);
      if !r.allowed {
        RebootLoopLives(q, env, r.world, r.options, installed, steps[1..]);
      }
    }
  }

  lemma WaitForRebootLives(
    q: Life, env: Env, w: World, options: CheckOptions, installed: InstallResult, r: RebootInput)
    requires Awaiting(Fold(NextLife, q, w.log), installed)
    ensures var s := WaitForReboot(env, w, options, installed, r);
            var l := Fold(NextLife, q, s.world.log);
            if s.value then In(l, Rebooting) else Awaiting(l, installed)
  {
    hide Fold, RebootLoop, UpdateNextUpdateTime;
    EmitFolds(NextLife, q);
    if !r.allowedAtOnce {
      var w1 := Emit(w, Query(RebootAllowed(options, installed, r.allowedAtOnce)));
      var w2 := Emit(w1, Waited(ForReboot(CHECK_REBOOT_ALLOWED_INTERVAL)));
      NextTimeLives(q, w2, r.timing, installed);
      RebootLoopLives(q, env, UpdateNextUpdateTime(w2, r.timing), options, installed, r.steps);
    }
  }

  /** Where a record may stop between two turns, or in the middle of a cycle that ends with a reboot. */
  predicate Paused(l: Life, halted: bool) {
    l.Life? && if halted then l.stage.AwaitingReboot? || l.stage.Rebooting? else l.stage == Resting
  }

  lemma AwaitCheckLives(q: Life, w: World, c: CycleInput)
    requires In(Fold(NextLife, q, w.log), Resting)
    ensures Fold(NextLife, q, AwaitCheck(w, c).log) == Fold(NextLife, q, w.log)
  {
    hide Fold;
    EmitFolds(NextLife, q);
  }

  lemma CheckAndRebootLives(q: Life, env: Env, w: World, c: CycleInput)
    requires Positive(c.decision) && In(Fold(NextLife, q, w.log), Resting)
    ensures var s := CheckAndReboot(env, w, c);
            Paused(Fold(NextLife, q, s.world.log), !s.value)
  {
    hide Fold, CheckWhileServing, WaitForReboot, Upgraded;
    EmitFolds(NextLife, q);
    CheckWhileServingLives(q, env, w, c.decision.params, c);
    var s := CheckWhileServing(env, w, c.decision.params, c);
    if s.value.Needed? {
      var w1 := Emit(s.world, ChangeTo(WaitingForReboot));
      WaitForRebootLives(q, env, w1, Upgraded(OptionsOf(c.wake), c.arrivals), s.value.installResult, c.reboot);
    }
  }

  lemma CycleLives(q: Life, env: Env, d: Driver, start: Instant, c: CycleInput)
    requires In(Fold(NextLife, q, d.world.log), Resting) && !d.halted
    ensures var after := RunCycle(env, d, start, c);
            Paused(Fold(NextLife, q, after.world.log), after.halted)
  {
    hide Fold, AwaitCheck, CheckAndReboot;
    EmitFolds(NextLife, q);
    var d1 := TryReportWait(d, start, c);
    AwaitCheckLives(q, d1.world, c);
    if Positive(c.decision) {
      CheckAndRebootLives(q, env, AwaitCheck(d1.world, c), c);
    }
  }

  lemma {:induction false} RunLives(q: Life, env: Env, d: Driver, start: Instant, cycles: seq<CycleInput>)
    requires Paused(Fold(NextLife, q, d.world.log), d.halted)
    ensures var after := RunCycles(env, d, start, cycles);
            Paused(Fold(NextLife, q, after.world.log), after.halted)
    decreases |cycles|
  {
    hide RunCycle, Fold;
    if cycles != [] && !d.halted {
      CycleLives(q, env, d, start, cycles[0]);
      RunLives(q, env, RunCycle(env, d, start, cycles[0]), start, cycles[1..]);
    }
  }

  // What the rules mean for an observer

  function ShownBy(a: Act): seq<Shown> {
    match a
    case Yield(StateChange(s)) => [InState(s)]
    case Yield(UpdateCheckResult(r)) => [Told(r.Success?)]
    case _ => []
  }

  function Visible(log: seq<Act>): seq<Shown> {
    if log == [] then [] else Visible(log[..|log| - 1]) + ShownBy(log[|log| - 1])
  }

  /** One cycle as it is seen, up to the return to idle: it starts with CheckingForUpdates, goes one
      of seven ways, and tells exactly one result. */
  predicate IsCycle(w: seq<Shown>) {
    && |w| >= 2
    && w[0].InState? && w[0].state.CheckingForUpdates?
    && var rest := w[1..];
       || rest == [InState(ErrorCheckingForUpdate), Told(false)]
       || rest == [InState(NoUpdateAvailable), Told(true)]
       || rest == [InState(InstallationDeferredByPolicy), Told(true)]
       || rest == [Told(true)]
       || rest == [InState(InstallingUpdate), InState(InstallationError), Told(false)]
       || rest == [InState(InstallingUpdate), InState(InstallationError), Told(true)]
       || rest == [InState(InstallingUpdate), Told(true)]
       || rest == [InState(InstallingUpdate), Told(true), InState(WaitingForReboot)]
  }

  /** Complete cycles, each followed by Idle. */
  ghost predicate AreCycles(w: seq<Shown>)
    decreases |w|
  {
    w == [] ||
    exists n :: 0 <= n < |w| && AreCycles(w[..n]) && IsCycle(w[n..|w| - 1]) && w[|w| - 1] == InState(Idle)
  }

  ghost predicate IsCyclePrefix(w: seq<Shown>) {
    w == [] || exists rest :: IsCycle(w + rest)
  }

  /** What a cycle has shown after its CheckingForUpdates, by the stage it has reached. */
  function Progress(stage: Stage): seq<Shown> {
    match stage
    case Failing => [InState(ErrorCheckingForUpdate)]
    case Declining(s) => [InState(s)]
    case Starting => [InState(InstallingUpdate)]
    case Finished(_, _, _, _) => [InState(InstallingUpdate)]
    case Faulty => [InState(InstallingUpdate), InState(InstallationError)]
    case RebootWanted(_) => [InState(InstallingUpdate), Told(true)]
    case AwaitingReboot(_, _) => [InState(InstallingUpdate), Told(true), InState(WaitingForReboot)]
    case Rebooting => [InState(InstallingUpdate), Told(true), InState(WaitingForReboot)]
    case _ => []
  }

  predicate Fits(l: Life)
    requires l.Life?
  {
    match l.stage
    case Resting => l.shown == []
    case Done => IsCycle(l.shown)
    case _ =>
      && |l.shown| > 0
      && l.shown[0].InState? && l.shown[0].state.CheckingForUpdates?
      && l.shown[1..] == Progress(l.stage)
      && (l.stage.Declining? ==> l.stage.answer.NoUpdateAvailable? || l.stage.answer.InstallationDeferredByPolicy?)
  }

  lemma FitsIsCyclePrefix(l: Life)
    requires l.Life? && Fits(l)
    ensures IsCyclePrefix(l.shown)
    ensures l.stage.Done? || l.stage.Rebooting? ==> IsCycle(l.shown)
  {
    if l.shown != [] {
      var rest :=
        match l.stage
        case Asking => [Told(true)]
        case Failing => [Told(false)]
        case Declining(_) => [Told(true)]
        case Faulty => [Told(true)]
        case Starting => [Told(true)]
        case Finished(_, _, _, _) => [Told(true)]
        case _ => [];
      assert (l.shown + rest)[1..] == l.shown[1..] + rest;
      assert IsCycle(l.shown + rest);
    }
  }

  lemma RestFits()
    ensures Fits(REST) && AreCycles([])
  {
  }

  lemma NextShows(l: Life, a: Act)
    requires NextLife(l, a).Life?
    ensures l.Life?
    ensures NextLife(l, a).shown == if a == ChangeTo(Idle) then [] else l.shown + ShownBy(a)
    ensures a == ChangeTo(Idle) ==> l.stage.Done? || l.stage.Rebooting?
  {
  }

  lemma ShowStateFits(l: Life, s: State)
    requires l.Life? && Fits(l) && ShowState(l, s).Life?
    ensures Fits(ShowState(l, s))
  {
    hide IsCycle;
    if l.shown != [] {
      assert (l.shown + [InState(s)])[1..] == l.shown[1..] + [InState(s)];
    }
  }

  lemma ShowResultFits(l: Life, success: bool)
    requires l.Life? && Fits(l) && ShowResult(l, success).Life?
    ensures Fits(ShowResult(l, success))
  {
    if l.shown != [] {
      assert (l.shown + [Told(success)])[1..] == l.shown[1..] + [Told(success)];
    }
  }

  lemma NextFits(l: Life, a: Act)
    requires l.Life? && Fits(l) && NextLife(l, a).Life?
    ensures Fits(NextLife(l, a))
  {
    hide ShowState, ShowResult, IsCycle;
    if a.Yield? && a.event.StateChange? {
      ShowStateFits(l, a.event.state);
    } else if a.Yield? && a.event.UpdateCheckResult? {
      ShowResultFits(l, a.event.result.Success?);
    }
  }

  lemma CycleCompletes(complete: seq<Shown>, w: seq<Shown>)
    requires AreCycles(complete) && IsCycle(w)
    ensures AreCycles(complete + w + [InState(Idle)])
  {
    hide IsCycle;
    var more := complete + w + [InState(Idle)];
    assert more[..|complete|] == complete && more[|complete|..|more| - 1] == w;
  }

  /** A record that keeps the rules is complete cycles and the beginning of one more. */
  lemma {:induction false} RecordsAreCycles(log: seq<Act>) returns (complete: seq<Shown>)
    requires Fold(NextLife, REST, log).Life?
    ensures Fits(Fold(NextLife, REST, log))
    ensures Visible(log) == complete + Fold(NextLife, REST, log).shown
    ensures AreCycles(complete)
  {
    hide NextLife, Fits, IsCycle, AreCycles;
    if log == [] {
      RestFits();
      return [];
    }
    var before, last := log[..|log| - 1], log[|log| - 1];
    var l := Fold(NextLife, REST, before);
    assert Fold(NextLife, REST, log) == NextLife(l, last);
    NextShows(l, last);
    complete := RecordsAreCycles(before);
    NextFits(l, last);
    if last == ChangeTo(Idle) {
      FitsIsCyclePrefix(l);
      CycleCompletes(complete, l.shown);
      complete := complete + l.shown + [InState(Idle)];
    }
  }

  /** Whatever the server, the installer, the policy, storage, the clocks and the schedule do, what
      an observer of a run sees is a sequence of cycles and a beginning of one; the sequence is
      complete whenever the client waits for its next check. */
  lemma EveryRunIsCycles(env: Env, d: Driver, start: Instant, cycles: seq<CycleInput>)
    returns (complete: seq<Shown>, open: seq<Shown>)
    requires d.world.log == [] && !d.halted
    ensures var after := RunCycles(env, d, start, cycles);
            && Visible(after.world.log) == complete + open
            && AreCycles(complete) && IsCyclePrefix(open)
            && (after.halted ==> IsCycle(open)) && (!after.halted ==> open == [])
  {
    hide RunCycles;
    RunLives(REST, env, d, start, cycles);
    var after := RunCycles(env, d, start, cycles);
    complete := RecordsAreCycles(after.world.log);
    var l := Fold(NextLife, REST, after.world.log);
    open := l.shown;
    FitsIsCyclePrefix(l);
    if after.halted {
      assert IsCycle(open);
    }
  }

  /** The acts since the client was last idle. */
  function CycleActs(log: seq<Act>): seq<Act> {
    if log == [] || log[|log| - 1] == ChangeTo(Idle) then []
    else CycleActs(log[..|log| - 1]) + [log[|log| - 1]]
  }

  function LastQuery(log: seq<Act>): Option<PolicyQuery> {
    if log == [] then None
    else if log[|log| - 1].Query? then Some(log[|log| - 1].query)
    else LastQuery(log[..|log| - 1])
  }

  ghost predicate InstalledCleanly(acts: seq<Act>, installed: InstallResult) {
    exists plan, results ::
      && PerformedInstall(plan, installed, results) in acts
      && NoAppsFailed(results)
      && Query(RebootNeeded(plan, true)) in acts
  }

  ghost predicate Evidence(l: Life, log: seq<Act>)
    requires l.Life?
  {
    && (!l.stage.Rebooting? ==> PerformReboot !in CycleActs(log))
    && (l.stage.Finished? ==>
          exists results ::
            && PerformedInstall(l.stage.plan, l.stage.installResult, results) in CycleActs(log)
            && l.stage.clean == NoAppsFailed(results)
            && (l.stage.needed ==> Query(RebootNeeded(l.stage.plan, true)) in CycleActs(log)))
    && (l.stage.RebootWanted? ==> InstalledCleanly(CycleActs(log), l.stage.wanted))
    && (l.stage.AwaitingReboot? ==> InstalledCleanly(CycleActs(log), l.stage.awaited))
    && (l.stage.AwaitingReboot? && l.stage.granted ==>
          && LastQuery(log).Some? && LastQuery(log).value.RebootAllowed?
          && LastQuery(log).value.installResult == l.stage.awaited && LastQuery(log).value.allowed)
  }

  lemma NextEvidence(l: Life, log: seq<Act>, last: Act)
    requires l.Life? && Evidence(l, log) && NextLife(l, last).Life?
    requires last != ChangeTo(Idle)
    ensures Evidence(NextLife(l, last), log + [last])
  {
    var now := log + [last];
    assert now[..|log|] == log && CycleActs(now) == CycleActs(log) + [last];
    if last.PerformedInstall? {
      assert last in CycleActs(now);
    }
  }

  lemma {:induction false} RecordsHoldEvidence(log: seq<Act>)
    requires Fold(NextLife, REST, log).Life?
    ensures Evidence(Fold(NextLife, REST, log), log)
  {
    if log != [] {
      var before, last := log[..|log| - 1], log[|log| - 1];
      RecordsHoldEvidence(before);
      assert log == before + [last];
      if last != ChangeTo(Idle) {
        NextEvidence(Fold(NextLife, REST, before), before, last);
      }
    }
  }

  /** Every reboot comes in a cycle that installed its update without any app failing and that the
      policy wanted to end with a reboot, comes once in it, and the question the policy was asked
      last was whether this very installation may be followed by a reboot now: it said yes. */
  lemma EveryRebootIsWarranted(env: Env, d: Driver, start: Instant, cycles: seq<CycleInput>, n: nat)
    requires d.world.log == [] && !d.halted
    requires var log := RunCycles(env, d, start, cycles).world.log;
             n < |log| && log[n] == PerformReboot
    ensures var before := RunCycles(env, d, start, cycles).world.log[..n];
            && LastQuery(before).Some? && LastQuery(before).value.RebootAllowed? && LastQuery(before).value.allowed
            && InstalledCleanly(CycleActs(before), LastQuery(before).value.installResult)
            && PerformReboot !in CycleActs(before)
  {
    hide RunCycles;
    RunLives(REST, env, d, start, cycles);
    var log := RunCycles(env, d, start, cycles).world.log;
    LifeOfPrefix(log, n + 1);
    LifeOfPrefix(log, n);
    assert log[..n + 1][..n] == log[..n];
    RecordsHoldEvidence(log[..n]);
  }

  lemma {:induction false} LifeOfPrefix(log: seq<Act>, n: nat)
    requires Fold(NextLife, REST, log).Life? && n <= |log|
    ensures Fold(NextLife, REST, log[..n]).Life?
  {
    if n < |log| {
      assert log[..|log| - 1][..n] == log[..n];
      LifeOfPrefix(log[..|log| - 1], n);
    } else {
      assert log[..n] == log;
    }
  }
}
