/** What a whole check shows, act by act, and what it leaves behind: the states, events, metrics and policy
    queries as a function of the replies, the clocks, the policy and the installer. */
module Transcript {
  import opened Wrappers
  import opened MachineInts
  import opened Clock
  import opened Protocol
  import opened Storage
  import opened CheckContext
  import opened AppSet
  import opened RequestBuilder
  import opened Trace
  import opened UpdateFlow
  import opened Observers
  import opened Requests
  import opened Retry
  import opened Outcomes
  import Bookkeeping
  import Cohorts
  import InstallResults
  import Version

  /** All but the traffic and the pauses in it, the commits, and the changes of the protocol state. */
  predicate OfShow(a: Act) {
    || (a.Yield? && !a.event.ProtocolStateChange?)
    || (a.Report? && !a.metrics.OmahaEventLost?)
    || a.Query? || a.FirstSeen? || a.PerformedInstall?
  }

  function Show(shown: seq<Act>, a: Act): seq<Act> {
    if OfShow(a) then shown + [a] else shown
  }

  // The transcript

  function ToState(s: State): seq<Act> {
    [Yield(StateChange(s))]
  }

  /** The time since the last check, by the wall clock when that check was before the start and by the
      monotonic clock otherwise, unless the clock went backwards. */
  function IntervalShown(last: Option<PartialComplexTime>, now: ComplexTime, source: InstallSource): seq<Act> {
    match last
    case Some(Wall(t)) =>
      if now.wall >= t then [Report(UpdateCheckInterval(now.wall - t, WallClock, source))] else []
    case Some(Complex(t)) =>
      if now.mono >= t.mono then [Report(UpdateCheckInterval(now.mono - t.mono, MonotonicClock, source))] else []
    case _ => []
  }

  /** How long the server took, attempt by attempt. */
  function TimesShown(i: CheckInput, k: nat, n: nat): seq<Act>
    requires k <= n
    decreases n - k
  {
    var a := i.attempts.At(k);
    (if a.end >= a.start then [Report(UpdateCheckResponseTime(a.end - a.start, ResultFor(a.request.reply).Success?))]
     else [])
    + if k == n then [] else TimesShown(i, k + 1, n)
  }

  /** The time at which the plan was first seen: the one stored with it, or now. */
  function SinceFor(s: Store, planId: string, now: SystemTime): SystemTime {
    if s.GetString("install_plan_id") != Some(planId) then now
    else
      match s.GetInt("update_first_seen_time")
      case None => now
      case Some(micros) => micros * 1000
  }

  /** The plan is stored without its time, and cannot be taken back. */
  predicate LeftTorn(s: Store, planId: string, faults: SeenFaults) {
    && s.GetString("install_plan_id") != Some(planId)
    && "install_plan_id" !in faults.write.keys
    && "update_first_seen_time" in faults.write.keys
    && "install_plan_id" in faults.undo.keys
  }

  function ProgressShown(progress: seq<real>): seq<Act> {
    seq(|progress|, k requires 0 <= k < |progress| => Yield(InstallProgressChange(progress[k])))
  }

  /** One event for each app that failed, in order. */
  function FailuresShown(results: seq<AppInstallResult>): seq<Act> {
    if results == [] then []
    else
      match results[0]
      case Failed(error) => [Yield(InstallerError(error))] + FailuresShown(results[1..])
      case _ => FailuresShown(results[1..])
  }

  predicate NoneFailed(results: seq<AppInstallResult>) {
    forall k :: 0 <= k < |results| ==> !results[k].Failed?
  }

  /** How an installation ends: its duration, and then the failures, or the time since the update was first
      seen and the question whether it needs a reboot. */
  function EndingShown(i: CheckInput, plan: Plan, results: seq<AppInstallResult>, since: SystemTime): seq<Act> {
    (if i.installFinish < i.installStart then []
     else if NoneFailed(results) then [Report(SuccessfulUpdateDuration(i.installFinish - i.installStart))]
     else [Report(FailedUpdateDuration(i.installFinish - i.installStart))])
    + if !NoneFailed(results) then FailuresShown(results) + ToState(InstallationError)
      else
        (if i.installFinish < since then [] else [Report(SuccessfulUpdateFromFirstSeen(i.installFinish - since))])
        + [Query(RebootNeeded(plan, i.rebootNeeded))]
  }

  function InstallShown(i: CheckInput, plan: Plan, r: Response, s: Store): seq<Act> {
    var outcome := i.install(r);
    var since := SinceFor(s, plan.id, i.installStart);
    ToState(InstallingUpdate)
    + [FirstSeen(plan.id, i.installStart, since, LeftTorn(s, plan.id, i.seenFaults))]
    + ProgressShown(outcome.progress)
    + [PerformedInstall(plan, outcome.installResult, outcome.results)]
    + EndingShown(i, plan, outcome.results, since)
  }

  /** What is made of a response. */
  function AnswerShown(i: CheckInput, r: Response, s: Store): seq<Act> {
    [Yield(OmahaServerResponse(r))]
    + if Updates(r.apps) == [] then ToState(NoUpdateAvailable)
      else if i.plan.None? then ToState(InstallingUpdate) + ToState(InstallationError)
      else
        [Query(UpdateCanStart(i.plan.value, i.planDecision))]
        + match i.planDecision
          case UpdateOk => InstallShown(i, i.plan.value, r, s)
          case UpdateDeferredByPolicy => ToState(InstallationDeferredByPolicy)
          case UpdateDeniedByPolicy => []
  }

  /** From the last reply on. */
  function ReplyShown(i: CheckInput, n: nat, s: Store): seq<Act> {
    var result := ResultFor(i.attempts.At(n).request.reply);
    (if result.Failure? then ToState(ErrorCheckingForUpdate) else [])
    + [Report(RequestsPerCheck(n, result.Success?))]
    + match result
      case Failure(_) => []
      case Success(Malformed) => ToState(ErrorCheckingForUpdate)
      case Success(Parsed(r)) => AnswerShown(i, r, s)
  }

  /** Failed if an app failed, else successful if one was updated. */
  function VerdictOn(responses: seq<AppResponse>): Option<bool> {
    if exists k :: 0 <= k < |responses| && responses[k].result == InstallPlanExecutionError then Some(false)
    else if exists k :: 0 <= k < |responses| && responses[k].result == Updated then Some(true)
    else None
  }

  /** The attempts it took, or why it failed: the network, the server, or the client itself. */
  function ResultShown(p: Performed, failures: u32, installs: int): seq<Act> {
    match p
    case Success((responses, _)) =>
      [Report(AttemptsToSuccessfulCheck((failures + 1) % 0x1_0000_0000))]
      + (match VerdictOn(responses)
         case None => []
         case Some(ok) => [Report(AttemptsToSuccessfulInstall((installs + 1) % 0x1_0000_0000_0000_0000, ok))])
    case Failure(OmahaRequest(HttpTransport(_))) => [Report(UpdateCheckFailureReason(NetworkReason))]
    case Failure(OmahaRequest(HttpStatus(_))) => [Report(UpdateCheckFailureReason(NetworkReason))]
    case Failure(OmahaRequest(_)) => [Report(UpdateCheckFailureReason(InternalReason))]
    case Failure(_) => [Report(UpdateCheckFailureReason(OmahaReason))]
  }

  /** The server was heard of at the end of the check if it answered, and the check was made at its start. */
  function ScheduleAfter(s: UpdateCheckSchedule, i: CheckInput, answered: bool): UpdateCheckSchedule {
    UpdateCheckSchedule(
      if answered then Some(Complex(i.endTime)) else s.lastUpdateTime,
      Some(Complex(i.checkTime)),
      s.nextUpdateTime)
  }

  function ToldResult(p: Performed): CheckResult {
    match p
    case Success((responses, _)) => Success(responses)
    case Failure(e) => Failure(e)
  }

  function CheckShown(w: World, params: RequestParams, i: CheckInput, n: nat): seq<Act>
    requires n >= 1
  {
    var reply := i.attempts.At(n).request.reply;
    ToState(CheckingForUpdates(params.source))
    + IntervalShown(w.context.schedule.lastUpdateCheckTime, i.checkTime, params.source)
    + TimesShown(i, 1, n)
    + ReplyShown(i, n, w.store)
    + ResultShown(Outcome(i, reply), w.context.state.consecutiveFailedUpdateChecks,
                  Bookkeeping.InstallsRead(w.store.cached))
    + [Yield(ScheduleChange(ScheduleAfter(w.context.schedule, i, ResultFor(reply).Success?))),
       Yield(UpdateCheckResult(ToldResult(Outcome(i, reply))))]
  }

  // What requests leave alone

  /** Until something is installed, the schedule and the stored plan with its time stay as they are. */
  ghost predicate Still(w: World, v: World) {
    && v.context.schedule == w.context.schedule
    && SameAt(v.store.cached, w.store.cached, INSTALL_PLAN_ID)
    && SameAt(v.store.cached, w.store.cached, UPDATE_FIRST_SEEN_TIME)
  }

  lemma PlanIsNoContext()
    ensures INSTALL_PLAN_ID !in CONTEXT_KEYS && UPDATE_FIRST_SEEN_TIME !in CONTEXT_KEYS
  {
    Bookkeeping.KeysDiffer();
  }

  lemma RequestIsStill(w: World, purpose: Purpose, request: Intermediate, input: RequestInput)
    ensures Still(w, DoRequest(w, purpose, request, input).world)
  {
    hide PersistContext, ParseRetryAfter, CONTEXT_KEYS;
    PlanIsNoContext();
    match input.reply {
      case Responded(_, _, retryAfter, _) =>
        var poll := ParseRetryAfter(retryAfter);
        var c := w.context.(state := w.context.state.(serverDictatedPollInterval := poll));
        PersistContextForeign(w.store, c, input.faults);
      case _ =>
    }
  }

  lemma ReportIsStill(
    env: Env, w: World, params: RequestParams, event: Event, apps: seq<App>, sessionId: GUID, versions: NextVersions,
    d: Option<Duration>, input: RequestInput)
    ensures Still(w, ReportEvent(env, w, params, event, apps, sessionId, versions, d, input))
  {
    hide DoRequest, RequestOf, EventOps;
    var request := RequestOf(env, params, EventOps(event, apps, versions, d), sessionId, input.requestId);
    RequestIsStill(w, ForEvent, request, input);
  }

  lemma AttemptIsStill(env: Env, w: World, params: RequestParams, ops: seq<Op>, i: CheckInput, k: nat)
    ensures Still(w, Attempt(env, w, params, ops, i, k).world)
  {
    hide DoRequest, RequestOf;
    var a := i.attempts.At(k);
    RequestIsStill(w, ForCheck, RequestOf(env, params, ops, i.sessionId, a.request.requestId), a.request);
  }

  lemma {:induction false} AttemptsAreStill(
    env: Env, w: World, params: RequestParams, ops: seq<Op>, i: CheckInput, k: nat)
    requires 1 <= k <= MAX_OMAHA_REQUEST_ATTEMPTS
    ensures Still(w, AttemptLoop(env, w, params, ops, i, k).world)
    decreases MAX_OMAHA_REQUEST_ATTEMPTS - k
  {
    hide Attempt, BackoffMillis;
    AttemptIsStill(env, w, params, ops, i, k);
    var s := Attempt(env, w, params, ops, i, k);
    if Retries(s.value, k, s.world.context.state.serverDictatedPollInterval) {
      var w1 := Emit(s.world, Waited(Backoff(BackoffMillis(k, i.attempts.At(k).random))));
      AttemptsAreStill(env, w1, params, ops, i, k + 1);
    }
  }

  /** An installation leaves the schedule alone. */
  lemma InstallKeepsSchedule(
    env: Env, w: World, params: RequestParams, apps: seq<App>, plan: Plan, r: Response, i: CheckInput)
    ensures InstallUpdate(env, w, params, apps, plan, r, i).world.context.schedule == w.context.schedule
  {
    hide ReportEvent, DoRequest, RequestOf, InstallOps, InstalledApps, EventOps, VersionsOf, AppsWithUpdate,
      WalkResults, ErrorsOf, StorePlan, CheckedMicros, LostEvents, NoAppsFailed, ProgressActs, ErrorActs;
    var versions := VersionsOf(AppsWithUpdate(r.apps));
    var w1 := Emit(w, ChangeTo(InstallingUpdate));
    var started := SuccessEvent(UpdateDownloadStarted);
    ReportIsStill(env, w1, params, started, apps, i.sessionId, versions, None, i.events.first);
    var w2 := ReportEvent(env, w1, params, started, apps, i.sessionId, versions, None, i.events.first);
    var seen := RecordFirstSeen(w2, plan.id, i.installStart, i.seenFaults);
    var outcome := i.install(r);
    var w3 := EmitAll(seen.world, ProgressActs(outcome.progress));
    var w4 := Emit(w3, PerformedInstall(plan, outcome.installResult, outcome.results));
    var w5 := ReportInstallDuration(w4, i.installStart, i.installFinish, NoAppsFailed(outcome.results));
    var d := InstallDuration(i.installStart, i.installFinish);
    InstallsKeepSchedule(env, w5, params, apps, r, outcome.results, d, i);
    CountAppsWithUpdate(r.apps);
  }

  lemma InstallsKeepSchedule(
    env: Env, w: World, params: RequestParams, apps: seq<App>, r: Response, results: seq<AppInstallResult>,
    d: Option<Duration>, i: CheckInput)
    ensures ReportInstalls(env, w, params, apps, r, results, d, i).context.schedule == w.context.schedule
  {
    hide ReportEvent, DoRequest, RequestOf, InstallOps, InstalledApps, VersionsOf, AppsWithUpdate, LostEvents;
    var updates := AppsWithUpdate(r.apps);
    var ops := InstallOps(apps, updates, results, d);
    var request := RequestOf(env, params, ops, i.sessionId, i.events.installs.requestId);
    RequestIsStill(w, ForEvent, request, i.events.installs);
    var s := DoRequest(w, ForEvent, request, i.events.installs);
    var w1 := if s.value.Failure? then EmitAll(s.world, LostEvents(ops)) else s.world;
    ReportIsStill(env, w1, params, SuccessEvent(UpdateComplete), InstalledApps(apps, updates, results), i.sessionId,
                  VersionsOf(updates), d, i.events.complete);
  }

  lemma HandlingKeepsSchedule(env: Env, w: World, params: RequestParams, apps: seq<App>, r: Response, i: CheckInput)
    ensures HandleResponse(env, w, params, apps, r, i).world.context.schedule == w.context.schedule
  {
    hide ReportEvent, InstallUpdate, VersionsOf, AppsWithUpdate, SameAction;
    var w1 := Emit(w, Yield(OmahaServerResponse(r)));
    var versions := VersionsOf(AppsWithUpdate(r.apps));
    match i.plan {
      case None =>
        var w2 := Emit(Emit(w1, ChangeTo(InstallingUpdate)), ChangeTo(InstallationError));
        ReportIsStill(env, w2, params, ErrorEvent(ConstructInstallPlan), apps, i.sessionId, versions, None,
                      i.events.first);
      case Some(plan) =>
        var w2 := Emit(w1, Query(UpdateCanStart(plan, i.planDecision)));
        ReportIsStill(env, w2, params, DEFERRED_EVENT, apps, i.sessionId, versions, None, i.events.first);
        ReportIsStill(env, w2, params, ErrorEvent(DeniedByPolicy), apps, i.sessionId, versions, None, i.events.first);
        InstallKeepsSchedule(env, w2, params, apps, plan, r, i);
    }
  }

  lemma PerformSchedules(env: Env, w: World, params: RequestParams, apps: seq<App>, i: CheckInput)
    ensures PerformUpdateCheck(env, w, params, apps, i).world.context.schedule ==
            w.context.schedule.(lastUpdateCheckTime := Some(Complex(i.checkTime)))
  {
    hide AttemptLoop, HandleResponse, ReportEvent, CheckOps, NoVersions;
    var w2 := ReportCheckInterval(Emit(w, ChangeTo(CheckingForUpdates(params.source))), i.checkTime, params.source);
    AttemptsAreStill(env, w2, params, CheckOps(apps), i, 1);
    var s := AttemptLoop(env, w2, params, CheckOps(apps), i, 1);
    var w3 := Emit(s.world, Report(RequestsPerCheck(s.value.0, s.value.1.Success?)));
    match s.value.1 {
      case Failure(_) =>
      case Success(Malformed) =>
        var w4 := Emit(w3, ChangeTo(ErrorCheckingForUpdate));
        ReportIsStill(env, w4, params, ErrorEvent(ParseResponse), apps, i.sessionId, NoVersions(apps), None,
                      i.events.first);
      case Success(Parsed(r)) => HandlingKeepsSchedule(env, w3, params, apps, r, i);
    }
  }

  // The check follows the transcript

  lemma NothingShown(shown: seq<Act>, apps: seq<App>, foreign: map<string, Value>)
    ensures IgnoresReporting(Show, shown, apps, foreign)
    ensures forall purpose :: IgnoresRequests(Show, shown, purpose, apps, foreign)
  {
  }

  lemma AttemptShows(
    q: seq<Act>, env: Env, w: World, params: RequestParams, apps: seq<App>, i: CheckInput, k: nat)
    ensures var s := Attempt(env, w, params, CheckOps(apps), i, k);
            && s.value == ResultFor(i.attempts.At(k).request.reply)
            && Fold(Show, q, s.world.log) == Fold(Show, q, w.log) + TimesShown(i, k, k)
  {
    hide Fold, DoRequest, RequestOf, ResultFor, CheckOps, PollAfter;
    EmitFolds(Show, q);
    var a := i.attempts.At(k);
    var request := RequestOf(env, params, CheckOps(apps), i.sessionId, a.request.requestId);
    CheckOpsFrom(apps);
    RequestOfFrom(apps, env, params, CheckOps(apps), i.sessionId, a.request.requestId);
    NothingShown(Fold(Show, q, w.log), apps, Foreign(w));
    RequestUnseen(Show, q, w, ForCheck, apps, request, a.request);
    RequestConcludes(w, ForCheck, request, a.request);
  }

  lemma {:induction false} AttemptsShow(
    q: seq<Act>, env: Env, w: World, params: RequestParams, apps: seq<App>, i: CheckInput, k: nat)
    requires 1 <= k <= MAX_OMAHA_REQUEST_ATTEMPTS
    ensures var s := AttemptLoop(env, w, params, CheckOps(apps), i, k);
            && k <= s.value.0 <= MAX_OMAHA_REQUEST_ATTEMPTS
            && Fold(Show, q, s.world.log) == Fold(Show, q, w.log) + TimesShown(i, k, s.value.0)
               + if s.value.1.Failure? then ToState(ErrorCheckingForUpdate) else []
    decreases MAX_OMAHA_REQUEST_ATTEMPTS - k
  {
    hide Fold, Attempt, BackoffMillis, CheckOps, ResultFor;
    EmitFolds(Show, q);
    AttemptShows(q, env, w, params, apps, i, k);
    var s := Attempt(env, w, params, CheckOps(apps), i, k);
    if Retries(s.value, k, s.world.context.state.serverDictatedPollInterval) {
      var w1 := Emit(s.world, Waited(Backoff(BackoffMillis(k, i.attempts.At(k).random))));
      AttemptsShow(q, env, w1, params, apps, i, k + 1);
    }
  }

  lemma {:induction false} AllShown(q: seq<Act>, acts: seq<Act>)
    requires forall a :: a in acts ==> OfShow(a)
    ensures Fold(Show, q, acts) == q + acts
  {
    if acts != [] {
      AllShown(q, acts[..|acts| - 1]);
      assert acts == acts[..|acts| - 1] + [acts[|acts| - 1]];
    }
  }

  lemma EmitAllShows(q: seq<Act>, w: World, acts: seq<Act>)
    requires forall a :: a in acts ==> OfShow(a)
    ensures Fold(Show, q, EmitAll(w, acts).log) == Fold(Show, q, w.log) + acts
  {
    FoldConcat(Show, q, w.log, acts);
    AllShown(Fold(Show, q, w.log), acts);
  }

  lemma {:induction false} FailuresAreErrors(results: seq<AppInstallResult>)
    ensures ErrorActs(ErrorsOf(results)) == FailuresShown(results)
    ensures ErrorsOf(results) == [] <==> NoneFailed(results)
    ensures forall a :: a in FailuresShown(results) ==> OfShow(a)
  {
    if results != [] {
      FailuresAreErrors(results[1..]);
      assert NoneFailed(results) <==> !results[0].Failed? && NoneFailed(results[1..]) by {
        assert forall k :: 1 <= k < |results| ==> results[k] == results[1..][k - 1];
      }
    }
  }

  lemma FirstSeenShows(q: seq<Act>, w: World, planId: string, now: SystemTime, faults: SeenFaults)
    ensures var s := RecordFirstSeen(w, planId, now, faults);
            && s.value == SinceFor(w.store, planId, now)
            && Fold(Show, q, s.world.log) == Fold(Show, q, w.log)
               + [FirstSeen(planId, now, SinceFor(w.store, planId, now), LeftTorn(w.store, planId, faults))]
  {
    hide Fold, StorePlan, FromMicros;
    EmitFolds(Show, q);
    var stored := w.store.GetInt(UPDATE_FIRST_SEEN_TIME);
    if stored.Some? {
      FromMicrosScales(stored.value);
    }
  }

  /** What recording a plan leaves: one that is stored already stays with its time; a new one is durable at once,
      with its time, when no write fails; and when one of the two writes fails, storage has no plan, or the one
      before, unless the new one could not be taken back. */
  lemma PlanIsRecorded(w: World, planId: string, now: SystemTime, faults: SeenFaults)
    ensures var v := RecordFirstSeen(w, planId, now, faults).world;
            var plan, time := "install_plan_id", "update_first_seen_time";
            if w.store.GetString(plan) == Some(planId) || plan in faults.write.keys then v.store == w.store
            else if time in faults.write.keys then
              && v.store.durable == w.store.durable
              && v.store.cached == if plan in faults.undo.keys then w.store.cached[plan := Text(planId)]
                                   else w.store.cached - {plan}
            else
              && v.store.GetString(plan) == Some(planId)
              && v.store.GetInt(time) == CheckedMicros(now)
              && v.store.cached - {plan, time} == w.store.cached - {plan, time}
              && v.store.durable == (if faults.write.commit then w.store.durable else v.store.cached)
  {
    hide CheckedMicros;
    var plan, time := INSTALL_PLAN_ID, UPDATE_FIRST_SEEN_TIME;
    assert |plan| != |time|;
    var m := w.store.cached;
    assert m[plan := Text(planId)] - {plan} == m - {plan};
    var t := m[plan := Text(planId)];
    var stored := Int(CheckedMicros(now).GetOr(0));
    assert t[time := stored] - {plan, time} == m - {plan, time};
    assert t - {time} - {plan, time} == m - {plan, time};
  }

  lemma FinishShows(
    q: seq<Act>, w: World, plan: Plan, r: Response, outcome: InstallOutcome, since: SystemTime, i: CheckInput)
    requires |outcome.results| == CountUpdates(r.apps)
    ensures Fold(Show, q, FinishInstall(w, plan, r, outcome, since, i).world.log) == Fold(Show, q, w.log)
            + if !NoneFailed(outcome.results) then FailuresShown(outcome.results) + ToState(InstallationError)
              else
                (if i.installFinish < since then []
                 else [Report(SuccessfulUpdateFromFirstSeen(i.installFinish - since))])
                + [Query(RebootNeeded(plan, i.rebootNeeded))]
  {
    hide Fold, WalkResults, ErrorsOf, VersionsOf, AppsWithUpdate, RecordFinish, NoneFailed, FailuresShown, ErrorActs;
    EmitFolds(Show, q);
    FailuresAreErrors(outcome.results);
    if ErrorsOf(outcome.results) != [] {
      EmitAllShows(q, w, FailuresShown(outcome.results));
    } else {
      var w1 := if since <= i.installFinish
                then Emit(w, Report(SuccessfulUpdateFromFirstSeen(i.installFinish - since))) else w;
      FinishUnshown(q, w1, i.installFinish, VersionsOf(AppsWithUpdate(r.apps)), i.finishFaults);
    }
  }

  lemma FinishUnshown(q: seq<Act>, w: World, finish: SystemTime, versions: NextVersions, faults: Faults)
    ensures Fold(Show, q, RecordFinish(w, finish, versions, faults).log) == Fold(Show, q, w.log)
  {
    hide Fold, CheckedMicros;
    EmitFolds(Show, q);
  }

  lemma SinceReads(s: Store, t: Store, planId: string, now: SystemTime, faults: SeenFaults)
    requires SameAt(s.cached, t.cached, INSTALL_PLAN_ID) && SameAt(s.cached, t.cached, UPDATE_FIRST_SEEN_TIME)
    ensures SinceFor(s, planId, now) == SinceFor(t, planId, now)
    ensures LeftTorn(s, planId, faults) == LeftTorn(t, planId, faults)
  {
  }

  /** An installation up to the time at which its plan was first seen. */
  function Starting(
    env: Env, w: World, params: RequestParams, apps: seq<App>, plan: Plan, r: Response, i: CheckInput): Out<SystemTime>
  {
    var w1 := Emit(w, ChangeTo(InstallingUpdate));
    var w2 := ReportEvent(env, w1, params, SuccessEvent(UpdateDownloadStarted), apps, i.sessionId,
                          VersionsOf(AppsWithUpdate(r.apps)), None, i.events.first);
    RecordFirstSeen(w2, plan.id, i.installStart, i.seenFaults)
  }

  lemma StartingShows(
    q: seq<Act>, env: Env, w: World, params: RequestParams, apps: seq<App>, plan: Plan, r: Response, i: CheckInput)
    ensures var s := Starting(env, w, params, apps, plan, r, i);
            var since := SinceFor(w.store, plan.id, i.installStart);
            && s.value == since
            && Fold(Show, q, s.world.log) == Fold(Show, q, w.log) + ToState(InstallingUpdate)
               + [FirstSeen(plan.id, i.installStart, since, LeftTorn(w.store, plan.id, i.seenFaults))]
  {
    hide Fold, ReportEvent, RecordFirstSeen, VersionsOf, AppsWithUpdate, SinceFor, LeftTorn;
    EmitFolds(Show, q);
    var versions := VersionsOf(AppsWithUpdate(r.apps));
    var started := SuccessEvent(UpdateDownloadStarted);
    var w1 := Emit(w, ChangeTo(InstallingUpdate));
    NothingShown(Fold(Show, q, w1.log), apps, Foreign(w1));
    ReportEventUnseen(Show, q, env, w1, params, started, apps, i.sessionId, versions, None, i.events.first);
    ReportIsStill(env, w1, params, started, apps, i.sessionId, versions, None, i.events.first);
    var w2 := ReportEvent(env, w1, params, started, apps, i.sessionId, versions, None, i.events.first);
    SinceReads(w2.store, w.store, plan.id, i.installStart, i.seenFaults);
    FirstSeenShows(q, w2, plan.id, i.installStart, i.seenFaults);
  }

  lemma DurationShows(q: seq<Act>, w: World, i: CheckInput, results: seq<AppInstallResult>)
    ensures Fold(Show, q, ReportInstallDuration(w, i.installStart, i.installFinish, NoAppsFailed(results)).log)
         == Fold(Show, q, w.log)
            + (if i.installFinish < i.installStart then []
               else if NoneFailed(results) then [Report(SuccessfulUpdateDuration(i.installFinish - i.installStart))]
               else [Report(FailedUpdateDuration(i.installFinish - i.installStart))])
  {
    hide Fold, NoAppsFailed, NoneFailed;
    EmitFolds(Show, q);
    NoneFailedMeans(results);
  }

  /** What comes after the installer is done. */
  function Ending(
    env: Env, w: World, params: RequestParams, apps: seq<App>, plan: Plan, r: Response, since: SystemTime,
    i: CheckInput): Out<Performed>
    requires |i.install(r).results| == CountUpdates(r.apps)
  {
    var outcome := i.install(r);
    var w1 := ReportInstallDuration(w, i.installStart, i.installFinish, NoAppsFailed(outcome.results));
    var d := InstallDuration(i.installStart, i.installFinish);
    FinishInstall(ReportInstalls(env, w1, params, apps, r, outcome.results, d, i), plan, r, outcome, since, i)
  }

  lemma EndingShows(
    q: seq<Act>, env: Env, w: World, params: RequestParams, apps: seq<App>, plan: Plan, r: Response,
    since: SystemTime, i: CheckInput)
    requires |i.install(r).results| == CountUpdates(r.apps)
    ensures Fold(Show, q, Ending(env, w, params, apps, plan, r, since, i).world.log)
         == Fold(Show, q, w.log) + EndingShown(i, plan, i.install(r).results, since)
  {
    hide Fold, ReportInstalls, FinishInstall, NoAppsFailed, FailuresShown, NoneFailed, ReportInstallDuration;
    var outcome := i.install(r);
    DurationShows(q, w, i, outcome.results);
    var w1 := ReportInstallDuration(w, i.installStart, i.installFinish, NoAppsFailed(outcome.results));
    var d := InstallDuration(i.installStart, i.installFinish);
    NothingShown(Fold(Show, q, w1.log), apps, Foreign(w1));
    ReportInstallsUnseen(Show, q, env, w1, params, apps, r, outcome.results, d, i);
    FinishShows(q, ReportInstalls(env, w1, params, apps, r, outcome.results, d, i), plan, r, outcome, since, i);
  }

  lemma InstallShows(
    q: seq<Act>, env: Env, w: World, params: RequestParams, apps: seq<App>, plan: Plan, r: Response, i: CheckInput)
    ensures Fold(Show, q, InstallUpdate(env, w, params, apps, plan, r, i).world.log)
         == Fold(Show, q, w.log) + InstallShown(i, plan, r, w.store)
  {
    hide Fold, InstallUpdate, Starting, Ending, SinceFor, LeftTorn, ProgressActs, ProgressShown, EndingShown;
    EmitFolds(Show, q);
    CountAppsWithUpdate(r.apps);
    InstallGoesOn(env, w, params, apps, plan, r, i);
    StartingShows(q, env, w, params, apps, plan, r, i);
    var seen := Starting(env, w, params, apps, plan, r, i);
    var outcome := i.install(r);
    ProgressIsShown(outcome.progress);
    EmitAllShows(q, seen.world, ProgressActs(outcome.progress));
    var w3 := EmitAll(seen.world, ProgressActs(outcome.progress));
    var w4 := Emit(w3, PerformedInstall(plan, outcome.installResult, outcome.results));
    EndingShows(q, env, w4, params, apps, plan, r, seen.value, i);
  }

  lemma InstallGoesOn(
    env: Env, w: World, params: RequestParams, apps: seq<App>, plan: Plan, r: Response, i: CheckInput)
    requires |i.install(r).results| == CountUpdates(r.apps)
    ensures var seen := Starting(env, w, params, apps, plan, r, i);
            var outcome := i.install(r);
            var w4 := Emit(EmitAll(seen.world, ProgressActs(outcome.progress)),
                           PerformedInstall(plan, outcome.installResult, outcome.results));
            InstallUpdate(env, w, params, apps, plan, r, i) == Ending(env, w4, params, apps, plan, r, seen.value, i)
  {
    hide ReportEvent, RecordFirstSeen, ReportInstalls, FinishInstall, NoAppsFailed, ProgressActs, VersionsOf,
      AppsWithUpdate;
  }

  lemma ProgressIsShown(progress: seq<real>)
    ensures ProgressActs(progress) == ProgressShown(progress)
    ensures forall a :: a in ProgressActs(progress) ==> OfShow(a)
  {
  }

  lemma NoneFailedMeans(results: seq<AppInstallResult>)
    ensures NoAppsFailed(results) == NoneFailed(results)
  {
  }

  lemma PlannedShows(
    q: seq<Act>, env: Env, w: World, params: RequestParams, apps: seq<App>, plan: Plan, r: Response, i: CheckInput)
    requires i.plan == Some(plan) && Updates(r.apps) != []
    ensures Fold(Show, q, HandleResponse(env, w, params, apps, r, i).world.log)
         == Fold(Show, q, w.log) + AnswerShown(i, r, w.store)
  {
    hide Fold, ReportEvent, InstallUpdate, VersionsOf, AppsWithUpdate, SameAction, Updates, InstallShown;
    EmitFolds(Show, q);
    UpdatesAreOffered(r.apps);
    var w1 := Emit(w, Yield(OmahaServerResponse(r)));
    var versions := VersionsOf(AppsWithUpdate(r.apps));
    var w2 := Emit(w1, Query(UpdateCanStart(plan, i.planDecision)));
    NothingShown(Fold(Show, q, w2.log), apps, Foreign(w2));
    match i.planDecision {
      case UpdateDeferredByPolicy =>
        ReportEventUnseen(Show, q, env, w2, params, DEFERRED_EVENT, apps, i.sessionId, versions, None, i.events.first);
      case UpdateDeniedByPolicy =>
        ReportEventUnseen(Show, q, env, w2, params, ErrorEvent(DeniedByPolicy), apps, i.sessionId, versions, None,
                          i.events.first);
      case UpdateOk =>
        InstallShows(q, env, w2, params, apps, plan, r, i);
    }
  }

  lemma HandlingShows(
    q: seq<Act>, env: Env, w: World, params: RequestParams, apps: seq<App>, r: Response, i: CheckInput)
    ensures Fold(Show, q, HandleResponse(env, w, params, apps, r, i).world.log)
         == Fold(Show, q, w.log) + AnswerShown(i, r, w.store)
  {
    hide Fold, ReportEvent, InstallUpdate, VersionsOf, AppsWithUpdate, SameAction, Updates, InstallShown;
    EmitFolds(Show, q);
    UpdatesAreOffered(r.apps);
    if Updates(r.apps) != [] && i.plan.Some? {
      PlannedShows(q, env, w, params, apps, i.plan.value, r, i);
    } else if Updates(r.apps) != [] {
      var w1 := Emit(w, Yield(OmahaServerResponse(r)));
      var w2 := Emit(Emit(w1, ChangeTo(InstallingUpdate)), ChangeTo(InstallationError));
      NothingShown(Fold(Show, q, w2.log), apps, Foreign(w2));
      ReportEventUnseen(Show, q, env, w2, params, ErrorEvent(ConstructInstallPlan), apps, i.sessionId,
                        VersionsOf(AppsWithUpdate(r.apps)), None, i.events.first);
    }
  }

  lemma IntervalShows(q: seq<Act>, w: World, now: ComplexTime, source: InstallSource)
    ensures Fold(Show, q, ReportCheckInterval(w, now, source).log)
         == Fold(Show, q, w.log) + IntervalShown(w.context.schedule.lastUpdateCheckTime, now, source)
    ensures ReportCheckInterval(w, now, source).store == w.store
    ensures ReportCheckInterval(w, now, source).context.state == w.context.state
  {
    hide Fold;
    EmitFolds(Show, q);
  }

  lemma AnswerReads(i: CheckInput, r: Response, s: Store, t: Store)
    requires SameAt(s.cached, t.cached, INSTALL_PLAN_ID) && SameAt(s.cached, t.cached, UPDATE_FIRST_SEEN_TIME)
    ensures AnswerShown(i, r, s) == AnswerShown(i, r, t)
  {
    hide Updates, FailuresShown, SinceFor, LeftTorn, NoneFailed;
    if i.plan.Some? {
      SinceReads(s, t, i.plan.value.id, i.installStart, i.seenFaults);
    }
  }

  lemma PerformShows(
    q: seq<Act>, env: Env, w: World, params: RequestParams, apps: seq<App>, i: CheckInput, n: nat)
    requires StopsAt(w.context.state.serverDictatedPollInterval, i.attempts, n)
    ensures Fold(Show, q, PerformUpdateCheck(env, w, params, apps, i).world.log)
         == Fold(Show, q, w.log) + ToState(CheckingForUpdates(params.source))
            + IntervalShown(w.context.schedule.lastUpdateCheckTime, i.checkTime, params.source)
            + TimesShown(i, 1, n) + ReplyShown(i, n, w.store)
  {
    hide Fold, AttemptLoop, HandleResponse, ReportEvent, ReportCheckInterval, CheckOps, NoVersions, ResultFor,
      Continues, Script, TimesShown, IntervalShown, AnswerShown;
    EmitFolds(Show, q);
    var poll := w.context.state.serverDictatedPollInterval;
    var w1 := Emit(w, ChangeTo(CheckingForUpdates(params.source)));
    IntervalShows(q, w1, i.checkTime, params.source);
    var w2 := ReportCheckInterval(w1, i.checkTime, params.source);
    AttemptsShow(q, env, w2, params, apps, i, 1);
    AttemptsAreStill(env, w2, params, CheckOps(apps), i, 1);
    AttemptsFollowScript([], env, w2, params, CheckOps(apps), i, 1, poll);
    var s := AttemptLoop(env, w2, params, CheckOps(apps), i, 1);
    LastAttemptIsUnique(poll, i.attempts, s.value.0, n);
    var w3 := Emit(s.world, Report(RequestsPerCheck(s.value.0, s.value.1.Success?)));
    match s.value.1 {
      case Failure(_) =>
      case Success(Malformed) =>
        var w4 := Emit(w3, ChangeTo(ErrorCheckingForUpdate));
        NothingShown(Fold(Show, q, w4.log), apps, Foreign(w4));
        ReportEventUnseen(Show, q, env, w4, params, ErrorEvent(ParseResponse), apps, i.sessionId, NoVersions(apps),
                          None, i.events.first);
      case Success(Parsed(r)) =>
        HandlingShows(q, env, w3, params, apps, r, i);
        AnswerReads(i, r, w3.store, w.store);
    }
  }

  lemma VerdictIsOn(responses: seq<AppResponse>)
    ensures InstallVerdict(responses) == VerdictOn(responses)
  {
    hide InstallVerdict;
    InstallResults.VerdictMeans(responses);
  }

  lemma CountWraps(n: i64)
    ensures WrapU64(WrapI64(n + 1)) == (n + 1) % 0x1_0000_0000_0000_0000
  {
  }

  lemma InstallAttemptsShow(q: seq<Act>, w: World, success: bool, faults: Faults)
    ensures Fold(Show, q, ReportInstallAttempts(w, success, faults).log) == Fold(Show, q, w.log)
            + [Report(AttemptsToSuccessfulInstall(
                 (Bookkeeping.InstallsRead(w.store.cached) + 1) % 0x1_0000_0000_0000_0000, success))]
    ensures ReportInstallAttempts(w, success, faults).context == w.context
    ensures ReportInstallAttempts(w, success, faults).apps == w.apps
  {
    hide Fold, WrapI64, WrapU64;
    EmitFolds(Show, q);
    CountWraps(w.store.GetInt(CONSECUTIVE_FAILED_INSTALL_ATTEMPTS).GetOr(0));
  }

  /** Taking the result: what is shown, and what becomes of the schedule, the failure count and the apps. */
  lemma ResultShows(q: seq<Act>, w: World, p: Performed, i: CheckInput)
    ensures var v := TakeResult(w, p, i);
            var failures := w.context.state.consecutiveFailedUpdateChecks;
            && Fold(Show, q, v.log) == Fold(Show, q, w.log)
               + ResultShown(p, failures, Bookkeeping.InstallsRead(w.store.cached))
            && v.context.schedule == w.context.schedule.(
                 lastUpdateTime := if p.Failure? && p.error.OmahaRequest? then w.context.schedule.lastUpdateTime
                                   else Some(Complex(i.endTime)))
            && v.context.state == w.context.state.(
                 consecutiveFailedUpdateChecks := if p.Success? then 0 else (failures + 1) % 0x1_0000_0000)
            && v.apps == if p.Success? then UpdateApps(w.apps, p.value.0) else w.apps
  {
    hide Fold, InstallVerdict, VerdictOn, UpdateApps, ReportInstallAttempts, Bookkeeping.InstallsRead;
    EmitFolds(Show, q);
    if p.Success? {
      VerdictIsOn(p.value.0);
      var w1 := ReportCheckAttempts(TalkedToOmaha(w, i.endTime), true);
      var w2 := w1.(apps := UpdateApps(w1.apps, p.value.0));
      if InstallVerdict(p.value.0).Some? {
        InstallAttemptsShow(q, w2, InstallVerdict(p.value.0).value, i.countFaults);
      }
    }
  }

  lemma OutcomeAnswered(i: CheckInput, reply: Reply)
    ensures var p := Outcome(i, reply);
            p.Failure? && p.error.OmahaRequest? <==> ResultFor(reply).Failure?
  {
    hide ResultFor, WalkResults, Answers, Updates;
  }

  /** All that a check shows, from the first state to the result that it tells, is this: it follows from the
      replies, the clocks, the plan, the policy and the installer, from the schedule and the counts before it,
      and from the plan that was stored with its time. */
  lemma CheckShows(env: Env, w: World, params: RequestParams, i: CheckInput, n: nat)
    requires w.log == [] && StopsAt(w.context.state.serverDictatedPollInterval, i.attempts, n)
    ensures Fold(Show, [], StartUpdateCheck(env, w, params, i).world.log) == CheckShown(w, params, i, n)
  {
    hide Fold, PerformUpdateCheck, TakeResult, PersistData, ReplyShown, ResultShown, TimesShown, IntervalShown, Outcome,
      StopsAt, ResultFor, Bookkeeping.InOrder, Bookkeeping.InstallsRead, Bookkeeping.Steady;
    EmitFolds(Show, []);
    FoldEmpty(Show, []);
    PerformShows([], env, w, params, w.apps, i, n);
    CheckHasOutcome(env, w, params, w.apps, i, n);
    PerformSchedules(env, w, params, w.apps, i);
    Bookkeeping.PerformKeeps(Bookkeeping.NEW_BOOKS, env, w, params, w.apps, i, false);
    var s := PerformUpdateCheck(env, w, params, w.apps, i);
    SameInstalls(s.world.store.cached, w.store.cached);
    ResultShows([], s.world, s.value, i);
    OutcomeAnswered(i, i.attempts.At(n).request.reply);
    var w1 := TakeResult(s.world, s.value, i);
    PersistDataUnseen(Show, [], env, Announce(w1, ResultOf(s.value)), i.persistFaults);
  }

  lemma SameInstalls(m: map<string, Value>, n: map<string, Value>)
    requires SameAt(m, n, CONSECUTIVE_FAILED_INSTALL_ATTEMPTS)
    ensures Bookkeeping.InstallsRead(m) == Bookkeeping.InstallsRead(n)
  {
  }

  /** The app after an answer: every field of the cohort that was sent for it replaces the one before, the day
      replaces the day before, and nothing else changes; an app that is not in the answer stays as it was. */
  predicate TookAnswer(before: App, r: Response, after: App) {
    && after == before.(cohort := after.cohort, userCounting := after.userCounting)
    && Persisted(after) == Cohorts.AfterAnswer(Persisted(before), r, before.id)
  }

  lemma RenderedIsTaken(app: App, responses: seq<AppResponse>, r: Response)
    requires Cohorts.Renders(responses, r)
    ensures TookAnswer(app, r, UpdateApp(app, responses))
  {
    hide Cohorts.Renders, Cohorts.AfterAnswer, FirstResponse;
    Cohorts.RenderedApp(responses, r, app);
  }

  /** What a check leaves in memory: when the server was heard of, when it was asked, the failures in a row, and
      the apps as the answer has them if the check succeeded. */
  lemma CheckLeaves(env: Env, w: World, params: RequestParams, i: CheckInput, n: nat, k: nat)
    requires StopsAt(w.context.state.serverDictatedPollInterval, i.attempts, n)
    ensures var v := StartUpdateCheck(env, w, params, i).world;
            var reply := i.attempts.At(n).request.reply;
            var p := Outcome(i, reply);
            var failures := w.context.state.consecutiveFailedUpdateChecks;
            && v.context.schedule == ScheduleAfter(w.context.schedule, i, ResultFor(reply).Success?)
            && v.context.state.consecutiveFailedUpdateChecks ==
               (if p.Success? then 0 else (failures + 1) % 0x1_0000_0000)
            && v.context.state.consecutiveProxiedRequests == w.context.state.consecutiveProxiedRequests
            && |v.apps| == |w.apps|
            && (p.Failure? ==> v.apps == w.apps)
            && (p.Success? ==> reply.Responded? && reply.body.Parsed?
                               && (k < |w.apps| ==> TookAnswer(w.apps[k], reply.body.response, v.apps[k])))
  {
    hide Fold, PerformUpdateCheck, TakeResult, PersistContext, PersistApps, StopsAt, Bookkeeping.InOrder,
      Bookkeeping.Steady, UpdateApp, WalkResults, Updates, Answers, TookAnswer, ResultShown;
    CheckHasOutcome(env, w, params, w.apps, i, n);
    PerformSchedules(env, w, params, w.apps, i);
    Bookkeeping.PerformKeeps(Bookkeeping.NEW_BOOKS, env, w, params, w.apps, i, false);
    var s := PerformUpdateCheck(env, w, params, w.apps, i);
    ResultShows([], s.world, s.value, i);
    if s.value.Success? && k < |w.apps| {
      var r := i.attempts.At(n).request.reply.body.response;
      OutcomeRenders(i, r);
      RenderedIsTaken(w.apps[k], s.value.value.0, r);
    }
  }

  lemma OutcomeRenders(i: CheckInput, r: Response)
    ensures Cohorts.Renders(Answers(r, NoUpdate), r)
    ensures Offered(i, r).Success? ==> Cohorts.Renders(Offered(i, r).value.0, r)
  {
    hide WalkResults, CountUpdates;
    CountAppsWithUpdate(r.apps);
    Cohorts.WalkRenders(r, i.install(r).results);
  }

  // A ping

  /** A ping in full: it asks, and what it leaves and shows follows from the reply.  Only an answer that can be
      read resets the failures, counts as an update, is announced, and is taken over by the apps. */
  lemma PingShows(env: Env, w: World, p: PingInput, k: nat)
    ensures var v := PingOmaha(env, w, p);
            var request := RequestOf(env, PING_PARAMS, PingOps(w.apps), p.sessionId, p.request.requestId);
            var asked := DoRequest(w, ForPing, request, p.request).world;
            var result := ResultFor(p.request.reply);
            var read := result.Success? && result.value.Parsed?;
            var failures := w.context.state.consecutiveFailedUpdateChecks;
            && v.context.schedule == (if read then w.context.schedule.(lastUpdateTime := Some(Complex(p.endTime)))
                                      else w.context.schedule)
            && v.context.state == ProtocolState(
                 PollAfter(w.context.state.serverDictatedPollInterval, p.request.reply),
                 if read then 0 else (failures + 1) % 0x1_0000_0000,
                 w.context.state.consecutiveProxiedRequests)
            && v.log == asked.log + (if read then [Yield(ScheduleChange(v.context.schedule))] else [])
               + (if p.persistFaults.commit then [] else [Committed(v.store.cached)])
            && |v.apps| == |w.apps|
            && (!read ==> v.apps == w.apps)
            && (read && k < |w.apps| ==> TookAnswer(w.apps[k], result.value.response, v.apps[k]))
  {
    hide DoRequest, RequestOf, PingOps, PersistContext, PersistApps, UpdateApp, SameAction, ResultFor, PollAfter,
      TookAnswer;
    var request := RequestOf(env, PING_PARAMS, PingOps(w.apps), p.sessionId, p.request.requestId);
    RequestConcludes(w, ForPing, request, p.request);
    var s := DoRequest(w, ForPing, request, p.request);
    match s.value {
      case Success(Parsed(r)) =>
        Cohorts.SameActionRenders(r);
        if k < |w.apps| {
          RenderedIsTaken(w.apps[k], SameAction(r, NoUpdate), r);
        }
      case _ =>
    }
  }

  // The days that pings carry

  /** The answer has an entry for the app. */
  predicate Concerns(r: Response, id: string) {
    exists k :: 0 <= k < |r.apps| && r.apps[k].id == id
  }

  lemma {:induction false} ConcernedIsFound(apps: seq<ResponseApp>, k: nat)
    requires k < |apps|
    ensures Cohorts.FirstEntry(apps, apps[k].id).Some?
  {
    if apps[0].id != apps[k].id {
      ConcernedIsFound(apps[1..], k - 1);
    }
  }

  lemma AnsweredAppsArePinged(env: Env, before: seq<App>, r: Response, after: seq<App>, k: nat, s: GUID, q: GUID)
    requires DistinctIds(before) && |after| == |before| && k < |before| && Concerns(r, before[k].id)
    requires forall j :: 0 <= j < |before| ==> TookAnswer(before[j], r, after[j])
    ensures var pinged := RequestOf(env, PING_PARAMS, PingOps(after), s, q).body.apps;
            var day := if r.daystart.Some? then r.daystart.value.elapsedDays else None;
            |pinged| == |before| && pinged[k].id == before[k].id && pinged[k].ping == Some(Ping(day, day))
  {
    hide RequestOf, PingOps, Cohorts.FirstEntry, Framed, Version.Printed;
    assert forall j :: 0 <= j < |before| ==> after[j].id == before[j].id;
    PingRequestPingsAll(env, after, s, q);
    var j :| 0 <= j < |r.apps| && r.apps[j].id == before[k].id;
    ConcernedIsFound(r.apps, j);
    assert TookAnswer(before[k], r, after[k]);
  }

  /** After a successful check, the next ping gives for each app that the answer was about the day of that
      answer, as the day it was last active and the day it was last counted. */
  lemma CheckSetsTheDays(
    env: Env, w: World, params: RequestParams, i: CheckInput, n: nat, k: nat, s: GUID, q: GUID)
    requires DistinctIds(w.apps) && k < |w.apps|
    requires StopsAt(w.context.state.serverDictatedPollInterval, i.attempts, n)
    requires var reply := i.attempts.At(n).request.reply;
             && Outcome(i, reply).Success? && reply.Responded? && reply.body.Parsed?
             && Concerns(reply.body.response, w.apps[k].id)
    ensures var v := StartUpdateCheck(env, w, params, i).world;
            var pinged := RequestOf(env, PING_PARAMS, PingOps(v.apps), s, q).body.apps;
            var r := i.attempts.At(n).request.reply.body.response;
            var day := if r.daystart.Some? then r.daystart.value.elapsedDays else None;
            |pinged| == |w.apps| && pinged[k].id == w.apps[k].id && pinged[k].ping == Some(Ping(day, day))
  {
    hide StartUpdateCheck, RequestOf, PingOps, StopsAt, TookAnswer, Concerns, Outcome;
    var v := StartUpdateCheck(env, w, params, i).world;
    var r := i.attempts.At(n).request.reply.body.response;
    CheckLeaves(env, w, params, i, n, k);
    forall j | 0 <= j < |w.apps|
      ensures TookAnswer(w.apps[j], r, v.apps[j])
    {
      CheckLeaves(env, w, params, i, n, j);
    }
    AnsweredAppsArePinged(env, w.apps, r, v.apps, k, s, q);
  }

  /** The same after a ping that was answered. */
  lemma PingSetsTheDays(env: Env, w: World, p: PingInput, k: nat, s: GUID, q: GUID)
    requires DistinctIds(w.apps) && k < |w.apps|
    requires var reply := p.request.reply;
             && reply.Responded? && reply.cupValid && 200 <= reply.status < 300 && reply.body.Parsed?
             && Concerns(reply.body.response, w.apps[k].id)
    ensures var v := PingOmaha(env, w, p);
            var pinged := RequestOf(env, PING_PARAMS, PingOps(v.apps), s, q).body.apps;
            var r := p.request.reply.body.response;
            var day := if r.daystart.Some? then r.daystart.value.elapsedDays else None;
            |pinged| == |w.apps| && pinged[k].id == w.apps[k].id && pinged[k].ping == Some(Ping(day, day))
  {
    hide PingOmaha, RequestOf, PingOps, TookAnswer, Concerns, DoRequest;
    var v := PingOmaha(env, w, p);
    var r := p.request.reply.body.response;
    PingShows(env, w, p, k);
    forall j | 0 <= j < |w.apps|
      ensures TookAnswer(w.apps[j], r, v.apps[j])
    {
      PingShows(env, w, p, j);
    }
    AnsweredAppsArePinged(env, w.apps, r, v.apps, k, s, q);
  }
}
