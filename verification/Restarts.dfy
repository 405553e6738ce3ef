/** What the client still knows after the reboot that ends an update, and what it needs to start at all. */
module Restarts {
  import opened Wrappers
  import opened MachineInts
  import opened Clock
  import opened Protocol
  import opened Storage
  import opened CheckContext
  import opened AppSet
  import opened RequestBuilder
  import opened Trace
  import opened UpdateFlow
  import opened ClientRun
  import opened Bookkeeping
  import opened Requests
  import opened Retry
  import opened Waits
  import Version

  // The mark of a finished update

  predicate Marks(m: map<string, Value>, finish: i64, version: string) {
    && "update_finish_time" in m && m["update_finish_time"] == Int(finish)
    && "target_version" in m && m["target_version"] == Text(version)
  }

  /** Finish time and target version are in storage, and no app could overwrite them. */
  ghost predicate Marked(w: World, finish: i64, version: string) {
    Marks(w.store.cached, finish, version) && Marks(w.store.durable, finish, version) && IdsFree(w.apps)
  }

  lemma MarkKeys()
    ensures UPDATE_FINISH_TIME == "update_finish_time" && TARGET_VERSION == "target_version"
    ensures UPDATE_FINISH_TIME !in CONTEXT_KEYS && TARGET_VERSION !in CONTEXT_KEYS
    ensures CONSECUTIVE_FAILED_INSTALL_ATTEMPTS !in {UPDATE_FINISH_TIME, TARGET_VERSION}
    ensures UPDATE_FINISH_TIME in RESERVED && TARGET_VERSION in RESERVED
  {
    assert |UPDATE_FINISH_TIME| == 18 && |TARGET_VERSION| == 14 && |CONSECUTIVE_FAILED_INSTALL_ATTEMPTS| == 35;
    assert |LAST_UPDATE_TIME| == 16 && |CONSECUTIVE_FAILED_UPDATE_CHECKS| == 32;
    assert |SERVER_DICTATED_POLL_INTERVAL| == 29;
  }

  lemma SameMarks(m: map<string, Value>, n: map<string, Value>, finish: i64, version: string)
    requires SameAt(m, n, UPDATE_FINISH_TIME) && SameAt(m, n, TARGET_VERSION)
    ensures Marks(m, finish, version) == Marks(n, finish, version)
  {
  }

  lemma NotePollMarked(w: World, poll: Option<Duration>, faults: Faults, finish: i64, version: string)
    requires Marked(w, finish, version)
    ensures Marked(NotePollInterval(w, poll, faults), finish, version)
  {
    hide PersistContext, Marks, CONTEXT_KEYS, RESERVED;
    MarkKeys();
    var w1 := w.WithState(w.context.state.(serverDictatedPollInterval := poll));
    PersistContextForeign(w.store, w1.context, faults);
    SameMarks(PersistContext(w.store, w1.context, faults).cached, w.store.cached, finish, version);
  }

  lemma RequestMarked(
    w: World, purpose: Purpose, request: Intermediate, input: RequestInput, finish: i64, version: string)
    requires Marked(w, finish, version)
    ensures Marked(DoRequest(w, purpose, request, input).world, finish, version)
  {
    hide NotePollInterval, ParseRetryAfter, Marks, IdsFree;
    if input.reply.Responded? {
      NotePollMarked(
        Emit(w, Sent(purpose, request)), ParseRetryAfter(input.reply.retryAfter), input.faults, finish, version);
    }
  }

  lemma SavedMarked(env: Env, w: World, faults: Faults, finish: i64, version: string)
    requires Marked(w, finish, version)
    ensures Marked(PersistData(env, w, faults), finish, version)
  {
    hide PersistContext, PersistApps, Marks, CONTEXT_KEYS, RESERVED;
    MarkKeys();
    var s := PersistContext(w.store, w.context, faults);
    PersistContextForeign(w.store, w.context, faults);
    PersistAppsForeign(s, w.apps, env.codec, faults, UPDATE_FINISH_TIME);
    PersistAppsForeign(s, w.apps, env.codec, faults, TARGET_VERSION);
    SameMarks(PersistApps(s, w.apps, env.codec, faults).cached, w.store.cached, finish, version);
  }

  lemma PingMarked(env: Env, w: World, p: PingInput, finish: i64, version: string)
    requires Marked(w, finish, version)
    ensures Marked(PingOmaha(env, w, p), finish, version)
  {
    hide DoRequest, RequestOf, PingOps, PersistData, UpdateApps, SameAction, Marks, IdsFree;
    var request := RequestOf(env, PING_PARAMS, PingOps(w.apps), p.sessionId, p.request.requestId);
    RequestMarked(w, ForPing, request, p.request, finish, version);
    var s := DoRequest(w, ForPing, request, p.request);
    match s.value {
      case Success(Parsed(r)) =>
        var reset := s.world.context.state.(consecutiveFailedUpdateChecks := 0);
        var w1 := TalkedToOmaha(s.world.WithState(reset), p.endTime);
        var w2 := Emit(w1, Yield(ScheduleChange(w1.context.schedule)));
        UpdateAppsFree(w2.apps, SameAction(r, NoUpdate));
        SavedMarked(env, w2.(apps := UpdateApps(w2.apps, SameAction(r, NoUpdate))), p.persistFaults, finish, version);
      case _ =>
        SavedMarked(env, CountFailure(s.world), p.persistFaults, finish, version);
    }
  }

  lemma {:induction false} LoopMarked(
    env: Env, w: World, options: CheckOptions, installed: InstallResult, steps: seq<RebootStep>, finish: i64,
    version: string)
    requires Marked(w, finish, version)
    ensures Marked(RebootLoop(env, w, options, installed, steps).world, finish, version)
    decreases |steps|
  {
    hide PingOmaha, Marks, IdsFree;
    if steps != [] {
      if steps[0].PingDue? {
        PingMarked(env, w, steps[0].ping, finish, version);
      }
      var r := RebootRound(env, w, options, installed, steps[0]);
      if !r.allowed {
        LoopMarked(env, r.world, r.options, installed, steps[1..], finish, version);
      }
    }
  }

  /** However long the reboot is waited for, and whatever is pinged and fails meanwhile, the mark stays. */
  lemma WaitMarked(
    env: Env, w: World, options: CheckOptions, installed: InstallResult, r: RebootInput, finish: i64, version: string)
    requires Marked(w, finish, version)
    ensures Marked(WaitForReboot(env, w, options, installed, r).world, finish, version)
  {
    hide RebootLoop, Marks, IdsFree;
    if !r.allowedAtOnce {
      var w1 := Emit(Emit(w, Query(RebootAllowed(options, installed, r.allowedAtOnce))),
                     Waited(ForReboot(CHECK_REBOOT_ALLOWED_INTERVAL)));
      LoopMarked(env, UpdateNextUpdateTime(w1, r.timing), options, installed, r.steps, finish, version);
    }
  }

  // A finished update is marked

  /** The version of the system that this response offers; "UNKNOWN" if it names none. */
  function SystemVersion(apps: seq<App>, updates: seq<ResponseApp>): Option<string> {
    if apps == [] then None
    else
      match OffersLast(updates, apps[0].id)
      case None => None
      case Some(x) => if VersionOffered(x).Some? then VersionOffered(x) else Some("UNKNOWN")
  }

  lemma FinishMarks(w: World, finish: SystemTime, updates: seq<ResponseApp>)
    requires IdsFree(w.apps) && CheckedMicros(finish).Some? && SystemVersion(w.apps, updates).Some?
    ensures Marked(RecordFinish(w, finish, VersionsOf(updates), NO_FAULTS), CheckedMicros(finish).value,
                   SystemVersion(w.apps, updates).value)
  {
    hide CheckedMicros, IdsFree, OffersLast, VersionsOf;
    MarkKeys();
    VersionsAreTheLast(updates, w.apps[0].id);
  }

  lemma InstallMarks(
    env: Env, w: World, params: RequestParams, apps: seq<App>, plan: Plan, r: Response, i: CheckInput)
    requires IdsFree(w.apps) && i.finishFaults == NO_FAULTS
    requires CheckedMicros(i.installFinish).Some? && SystemVersion(w.apps, Updates(r.apps)).Some?
    requires forall k :: 0 <= k < |i.install(r).results| ==> !i.install(r).results[k].Failed?
    ensures Marked(InstallUpdate(env, w, params, apps, plan, r, i).world, CheckedMicros(i.installFinish).value,
                   SystemVersion(w.apps, Updates(r.apps)).value)
  {
    hide ReportEvent, RecordFirstSeen, ReportInstalls, VersionsOf, AppsWithUpdate, NoAppsFailed, ProgressActs,
      WalkResults, ErrorsOf, RecordFinish, CheckedMicros, Marked, InOrder, Steady, SystemVersion, Updates, IdsFree,
      Clean;
    UpdatesAreOffered(r.apps);
    var versions := VersionsOf(AppsWithUpdate(r.apps));
    var started := SuccessEvent(UpdateDownloadStarted);
    var w1 := Emit(w, ChangeTo(InstallingUpdate));
    ReportEventKeeps(NEW_BOOKS, env, w1, params, started, apps, i.sessionId, versions, None, i.events.first, false);
    var w2 := ReportEvent(env, w1, params, started, apps, i.sessionId, versions, None, i.events.first);
    RecordFirstSeenKeeps(NEW_BOOKS, w2, plan.id, i.installStart, i.seenFaults, false);
    var seen := RecordFirstSeen(w2, plan.id, i.installStart, i.seenFaults);
    var outcome := i.install(r);
    var w3 := EmitAll(seen.world, ProgressActs(outcome.progress));
    var w4 := Emit(w3, PerformedInstall(plan, outcome.installResult, outcome.results));
    var w5 := ReportInstallDuration(w4, i.installStart, i.installFinish, NoAppsFailed(outcome.results));
    var d := InstallDuration(i.installStart, i.installFinish);
    ReportInstallsKeeps(NEW_BOOKS, env, w5, params, apps, r, outcome.results, d, i, false);
    var w6 := ReportInstalls(env, w5, params, apps, r, outcome.results, d, i);
    CountAppsWithUpdate(r.apps);
    NoErrors(outcome.results);
    var w7 := if seen.value <= i.installFinish
              then Emit(w6, Report(SuccessfulUpdateFromFirstSeen(i.installFinish - seen.value))) else w6;
    FinishMarks(w7, i.installFinish, Updates(r.apps));
    EmitMarked(RecordFinish(w7, i.installFinish, versions, NO_FAULTS), Query(RebootNeeded(plan, i.rebootNeeded)),
               CheckedMicros(i.installFinish).value, SystemVersion(w.apps, Updates(r.apps)).value);
  }

  lemma EmitMarked(w: World, a: Act, finish: i64, version: string)
    requires Marked(w, finish, version)
    ensures Marked(Emit(w, a), finish, version)
  {
  }

  lemma {:induction false} NoErrors(results: seq<AppInstallResult>)
    requires forall k :: 0 <= k < |results| ==> !results[k].Failed?
    ensures ErrorsOf(results) == []
  {
    if results != [] {
      NoErrors(results[1..]);
    }
  }

  /** The server answered with an update that was installed without any app failing. */
  predicate Installs(i: CheckInput, reply: Reply, plan: Plan, r: Response) {
    && ResultFor(reply) == Success(Parsed(r)) && Updates(r.apps) != []
    && i.plan == Some(plan) && i.planDecision.UpdateOk?
    && forall k :: 0 <= k < |i.install(r).results| ==> !i.install(r).results[k].Failed?
  }

  lemma AttemptsKeepApps(
    env: Env, w: World, params: RequestParams, ops: seq<Op>, i: CheckInput, k: nat)
    requires 1 <= k <= MAX_OMAHA_REQUEST_ATTEMPTS
    ensures AttemptLoop(env, w, params, ops, i, k).world.apps == w.apps
  {
    hide AttemptLoop, InOrder, Steady;
    AttemptLoopKeeps(NEW_BOOKS, env, w, params, ops, i, k, false);
  }

  lemma HandlingInstalls(
    env: Env, w: World, params: RequestParams, apps: seq<App>, r: Response, i: CheckInput, plan: Plan)
    requires Updates(r.apps) != [] && i.plan == Some(plan) && i.planDecision.UpdateOk?
    ensures var w2 := Emit(Emit(w, Yield(OmahaServerResponse(r))), Query(UpdateCanStart(plan, UpdateOk)));
            HandleResponse(env, w, params, apps, r, i) == InstallUpdate(env, w2, params, apps, plan, r, i)
  {
    hide InstallUpdate, AppsWithUpdate, Updates;
    UpdatesAreOffered(r.apps);
  }

  lemma PerformMarks(
    env: Env, w: World, params: RequestParams, i: CheckInput, n: nat, plan: Plan, r: Response)
    requires IdsFree(w.apps) && i.finishFaults == NO_FAULTS
    requires StopsAt(w.context.state.serverDictatedPollInterval, i.attempts, n)
    requires Installs(i, i.attempts.At(n).request.reply, plan, r)
    requires CheckedMicros(i.installFinish).Some? && SystemVersion(w.apps, Updates(r.apps)).Some?
    ensures Marked(PerformUpdateCheck(env, w, params, w.apps, i).world, CheckedMicros(i.installFinish).value,
                   SystemVersion(w.apps, Updates(r.apps)).value)
  {
    hide AttemptLoop, HandleResponse, CheckOps, StopsAt, Marked, CheckedMicros, SystemVersion, Updates, IdsFree, Fold,
      Script, ResultFor;
    var poll := w.context.state.serverDictatedPollInterval;
    var w2 := ReportCheckInterval(Emit(w, ChangeTo(CheckingForUpdates(params.source))), i.checkTime, params.source);
    AttemptsFollowScript([], env, w2, params, CheckOps(w.apps), i, 1, poll);
    AttemptsKeepApps(env, w2, params, CheckOps(w.apps), i, 1);
    var s := AttemptLoop(env, w2, params, CheckOps(w.apps), i, 1);
    LastAttemptIsUnique(poll, i.attempts, s.value.0, n);
    var w3 := Emit(s.world, Report(RequestsPerCheck(s.value.0, true)));
    HandlingInstalls(env, w3, params, w.apps, r, i, plan);
    var w4 := Emit(Emit(w3, Yield(OmahaServerResponse(r))), Query(UpdateCanStart(plan, UpdateOk)));
    InstallMarks(env, w4, params, w.apps, plan, r, i);
  }

  lemma ResultMarked(w: World, p: Performed, i: CheckInput, finish: i64, version: string)
    requires Marked(w, finish, version)
    ensures Marked(Announce(TakeResult(w, p, i), ResultOf(p)), finish, version)
  {
    hide InstallVerdict, UpdateApps, WrapU32, WrapI64, WrapU64, ReasonOf, Marks, RESERVED, CONTEXT_KEYS;
    MarkKeys();
    TakeResultStored(w, p, i, UPDATE_FINISH_TIME);
    TakeResultStored(w, p, i, TARGET_VERSION);
    SameMarks(TakeResult(w, p, i).store.cached, w.store.cached, finish, version);
    if p.Success? {
      UpdateAppsFree(w.apps, p.value.0);
    }
  }

  /** A check that finished the installation of a system update leaves it marked in durable storage, whatever
      fails besides the writing of the mark. */
  lemma FinishedUpdateIsMarked(
    env: Env, w: World, params: RequestParams, i: CheckInput, n: nat, plan: Plan, r: Response)
    requires IdsFree(w.apps) && i.finishFaults == NO_FAULTS
    requires StopsAt(w.context.state.serverDictatedPollInterval, i.attempts, n)
    requires Installs(i, i.attempts.At(n).request.reply, plan, r)
    requires CheckedMicros(i.installFinish).Some? && SystemVersion(w.apps, Updates(r.apps)).Some?
    ensures Marked(StartUpdateCheck(env, w, params, i).world, CheckedMicros(i.installFinish).value,
                   SystemVersion(w.apps, Updates(r.apps)).value)
  {
    hide PerformUpdateCheck, TakeResult, Announce, PersistData, StopsAt, Marked, CheckedMicros, SystemVersion, Updates,
      IdsFree, Installs;
    PerformMarks(env, w, params, i, n, plan, r);
    var s := PerformUpdateCheck(env, w, params, w.apps, i);
    var finish, version := CheckedMicros(i.installFinish).value, SystemVersion(w.apps, Updates(r.apps)).value;
    ResultMarked(s.world, s.value, i, finish, version);
    SavedMarked(env, Announce(TakeResult(s.world, s.value, i), ResultOf(s.value)), i.persistFaults, finish, version);
  }

  lemma RebootMarked(env: Env, w: World, c: CycleInput, n: nat, plan: Plan, r: Response)
    requires Positive(c.decision) && IdsFree(w.apps) && c.check.finishFaults == NO_FAULTS
    requires StopsAt(w.context.state.serverDictatedPollInterval, c.check.attempts, n)
    requires Installs(c.check, c.check.attempts.At(n).request.reply, plan, r)
    requires CheckedMicros(c.check.installFinish).Some? && SystemVersion(w.apps, Updates(r.apps)).Some?
    ensures Marked(CheckAndReboot(env, w, c).world, CheckedMicros(c.check.installFinish).value,
                   SystemVersion(w.apps, Updates(r.apps)).value)
  {
    hide StartUpdateCheck, WaitForReboot, Merge, Served, Upgraded, StopsAt, Marks, CheckedMicros, SystemVersion,
      Updates, IdsFree, Installs;
    var finish, version := CheckedMicros(c.check.installFinish).value, SystemVersion(w.apps, Updates(r.apps)).value;
    FinishedUpdateIsMarked(env, w.(log := []), c.decision.params, c.check, n, plan, r);
    var s := CheckWhileServing(env, w, c.decision.params, c);
    if s.value.Needed? {
      var w1 := Emit(s.world, ChangeTo(WaitingForReboot));
      WaitMarked(env, w1, Upgraded(OptionsOf(c.wake), c.arrivals), s.value.installResult, c.reboot, finish, version);
    }
  }

  // What the next life makes of it

  predicate MayStart(presets: seq<App>) {
    forall k :: 0 <= k < |presets| ==> presets[k].id != "" && presets[k].version != [0, 0, 0, 0]
  }

  lemma LoadKeepsValidity(presets: seq<App>, s: Store, codec: Codec)
    ensures AllValid(LoadApps(presets, s, codec)) == MayStart(presets)
  {
    hide LoadApp;
    assert Version.Pad([0]) == [0, 0, 0, 0];
    forall k | 0 <= k < |presets|
      ensures LoadApp(presets[k], s, codec).Valid() <==> presets[k].id != "" && presets[k].version != [0, 0, 0, 0]
    {
      LoadKeepsIdentity(presets[k], s, codec);
    }
  }

  lemma LoadKeepsIdentity(app: App, s: Store, codec: Codec)
    ensures LoadApp(app, s, codec).id == app.id && LoadApp(app, s, codec).version == app.version
  {
  }

  /** With an app without an id, or one whose version is all zeros, the client is built and does nothing. */
  lemma InvalidAppsDoNothing(env: Env, w: World, b: BootInput)
    requires !MayStart(b.presets)
    ensures Life(env, w, b).log == w.log + [Booted]
    ensures Life(env, w, b).store == Store(w.store.durable, w.store.durable)
  {
    hide LoadContext, LoadApps, RunCycles;
    LoadKeepsValidity(b.presets, w.store.Restart(), env.codec);
  }

  lemma BootFindsMark(env: Env, w: World, presets: seq<App>, finish: i64, version: string)
    requires Marked(w, finish, version)
    ensures PendingReport(env, Boot(env, w, presets).store) ==
            if version == env.config.os.version then Some(finish * 1000) else None
    ensures Fold(Watch, [], Boot(env, w.(log := []), presets).log) == []
  {
    hide LoadContext, LoadApps, FromMicros, IdsFree;
    MarkKeys();
    FromMicrosScales(finish);
    assert [Booted][..0] == [];
  }

  lemma MarkAside(w: World, v: World, finish: i64, version: string)
    requires Marked(w, finish, version) && v == w.(log := v.log)
    ensures Marked(v, finish, version)
  {
  }

  lemma BootsValid(env: Env, w: World, presets: seq<App>)
    ensures AllValid(Boot(env, w, presets).apps) == MayStart(presets)
  {
    hide LoadContext, AllValid, MayStart;
    LoadKeepsValidity(presets, w.store.Restart(), env.codec);
  }

  // In which turn

  /** The reports about a reboot among these acts. */
  function ReportsIn(acts: seq<Act>): seq<Act> {
    if acts == [] then []
    else
      var last := acts[|acts| - 1];
      ReportsIn(acts[..|acts| - 1]) + if last.Report? && last.metrics.WaitedForRebootDuration? then [last] else []
  }

  lemma {:induction false} ReportsConcat(a: seq<Act>, b: seq<Act>)
    ensures ReportsIn(a + b) == ReportsIn(a) + ReportsIn(b)
  {
    if b == [] {
      assert a + b == a;
    } else {
      assert (a + b)[..|a + b| - 1] == a + b[..|b| - 1];
      ReportsConcat(a, b[..|b| - 1]);
    }
  }

  lemma {:induction false} NoReports(acts: seq<Act>)
    requires forall a :: a in acts ==> !a.Report?
    ensures ReportsIn(acts) == []
  {
    if acts != [] {
      NoReports(acts[..|acts| - 1]);
    }
  }

  lemma {:induction false} RoundsReportNothing(options: CheckOptions, installed: InstallResult, steps: seq<RebootStep>)
    ensures forall a :: a in RoundsScript(options, installed, steps) ==> !a.Report?
    decreases |steps|
  {
    if steps != [] {
      RoundsReportNothing(options, installed, steps[1..]);
      RoundsReportNothing(CheckOptions(OnDemand), installed, steps[1..]);
    }
  }

  lemma RebootReportsNothing(options: CheckOptions, installed: InstallResult, r: RebootInput)
    ensures forall a :: a in RebootScript(options, installed, r) ==> !a.Report?
  {
    hide RoundsScript;
    RoundsReportNothing(options, installed, r.steps);
  }

  lemma AroundReportsNothing(c: CycleInput, wanted: RebootAfterUpdate, rebooted: bool)
    ensures forall a :: a in AroundCheck(c, wanted, rebooted) ==> !a.Report?
  {
    hide RebootScript, RaisedBy, AskedWith, LetsCheck;
    if wanted.Needed? {
      RebootReportsNothing(RaisedBy(AskedWith(c.wake), c.arrivals), wanted.installResult, c.reboot);
    }
  }

  lemma TurnReports(d: Driver, start: Instant, c: CycleInput, wanted: RebootAfterUpdate, rebooted: bool)
    ensures ReportsIn(TurnScript(d, start, c, wanted, rebooted)) == RebootReport(d.pendingReport, start, c.now)
  {
    hide AroundCheck;
    var report := RebootReport(d.pendingReport, start, c.now);
    AroundReportsNothing(c, wanted, rebooted);
    NoReports(AroundCheck(c, wanted, rebooted));
    ReportsConcat(report, AroundCheck(c, wanted, rebooted));
    if report != [] {
      assert report[..|report| - 1] == [];
    }
  }

  /** The report of the first of these turns whose clocks allow one. */
  function FirstReport(finish: Option<SystemTime>, start: Instant, cycles: seq<CycleInput>): seq<Act> {
    if cycles == [] then []
    else if RebootReport(finish, start, cycles[0].now) != [] then RebootReport(finish, start, cycles[0].now)
    else FirstReport(finish, start, cycles[1..])
  }

  lemma {:induction false} NothingPending(start: Instant, cycles: seq<CycleInput>)
    ensures FirstReport(None, start, cycles) == []
  {
    if cycles != [] {
      NothingPending(start, cycles[1..]);
    }
  }

  lemma TurnKeepsPending(env: Env, d: Driver, start: Instant, c: CycleInput)
    ensures RunCycle(env, d, start, c).pendingReport ==
            if RebootReport(d.pendingReport, start, c.now) != [] then None else d.pendingReport
  {
    hide AwaitCheck, CheckAndReboot, CommitStore;
  }

  /** In the turns that a run makes, all of them unless it halts before, there is one report, in the first turn
      that allows it, if there was one to make. */
  lemma {:induction false} RunReports(env: Env, d: Driver, start: Instant, cycles: seq<CycleInput>) returns (m: nat)
    ensures m <= |cycles| && (m < |cycles| ==> RunCycles(env, d, start, cycles).halted)
    ensures ReportsIn(Fold(Watch, [], RunCycles(env, d, start, cycles).world.log)) ==
            ReportsIn(Fold(Watch, [], d.world.log)) + FirstReport(d.pendingReport, start, cycles[..m])
    decreases |cycles|
  {
    hide Fold, RunCycle, RebootReport, TurnScript, CheckWhileServing, AwaitCheck, TryReportWait, EndsAllowed;
    if cycles == [] || d.halted {
      return 0;
    }
    var c, next := cycles[0], RunCycle(env, d, start, cycles[0]);
    var w := AwaitCheck(TryReportWait(d, start, c).world, c);
    var wanted := if Positive(c.decision) then CheckWhileServing(env, w, c.decision.params, c).value else NotNeeded;
    TurnFollowsScript([], env, d, start, c);
    TurnReports(d, start, c, wanted, EndsAllowed(c.reboot));
    ReportsConcat(Fold(Watch, [], d.world.log), TurnScript(d, start, c, wanted, EndsAllowed(c.reboot)));
    TurnKeepsPending(env, d, start, c);
    var n := RunReports(env, next, start, cycles[1..]);
    m := n + 1;
    assert cycles[..m][1..] == cycles[1..][..n];
    NothingPending(start, cycles[1..][..n]);
  }

  /** The life ends in a wait for a reboot. */
  predicate Halts(env: Env, w: World, b: BootInput) {
    var w1 := Boot(env, w.(log := []), b.presets);
    RunCycles(env, Driver(w1, PendingReport(env, w1.store), false), b.start, b.cycles).halted
  }

  /** A life after an update was finished reports once how long its reboot was waited for, in the first turn
      whose clocks allow it, if it runs the version that was installed; if it runs another, it reports nothing. */
  lemma MarkedUpdateIsReported(env: Env, w: World, b: BootInput, finish: i64, version: string) returns (m: nat)
    requires Marked(w, finish, version) && MayStart(b.presets)
    ensures m <= |b.cycles| && (m < |b.cycles| ==> Halts(env, w, b))
    ensures ReportsIn(Fold(Watch, [], Life(env, w.(log := []), b).log)) ==
            FirstReport(if version == env.config.os.version then Some(finish * 1000) else None, b.start, b.cycles[..m])
  {
    hide Fold, Boot, RunCycles, FirstReport, Marked, AllValid, PendingReport, MayStart;
    var alone := w.(log := []);
    var w1 := Boot(env, alone, b.presets);
    MarkAside(w, alone, finish, version);
    BootFindsMark(env, alone, b.presets, finish, version);
    BootsValid(env, alone, b.presets);
    m := RunReports(env, Driver(w1, PendingReport(env, w1.store), false), b.start, b.cycles);
  }

  /** From the installation to the next life: a system update that was installed without failures, its finish
      recorded without a fault, is reported in the next life, if that runs the version which the response
      offered: once, in the first turn whose clocks allow it, with the time from the finish, to the microsecond,
      to the start of that life.  A life that runs another version reports nothing. */
  lemma FinishedUpdateIsReported(
    env: Env, w: World, c: CycleInput, n: nat, plan: Plan, r: Response, later: Env, b: BootInput)
    returns (m: nat)
    requires LetsCheck(c.decision) && IdsFree(w.apps) && c.check.finishFaults == NO_FAULTS
    requires StopsAt(w.context.state.serverDictatedPollInterval, c.check.attempts, n)
    requires Installs(c.check, c.check.attempts.At(n).request.reply, plan, r)
    requires CutWall(c.check.installFinish).Some? && CutWall(c.check.installFinish).value.Wall?
    requires SystemVersion(w.apps, Updates(r.apps)).Some?
    requires MayStart(b.presets)
    ensures var v := CheckAndReboot(env, w, c).world;
            var finish := CutWall(c.check.installFinish).value.wall;
            var installed := SystemVersion(w.apps, Updates(r.apps)).value == later.config.os.version;
            && m <= |b.cycles|
            && ReportsIn(Fold(Watch, [], Life(later, v.(log := []), b).log)) ==
               FirstReport(if installed then Some(finish) else None, b.start, b.cycles[..m])
            && (m < |b.cycles| ==> Halts(later, v, b))
  {
    hide Fold, CheckAndReboot, Life, Marked, StopsAt, CheckedMicros, CutWall, SystemVersion, Updates, IdsFree, Installs,
      FirstReport, FromMicros, MayStart, Halts;
    CutWallIsStored(c.check.installFinish);
    var micros := CheckedMicros(c.check.installFinish).value;
    FromMicrosScales(micros);
    RebootMarked(env, w, c, n, plan, r);
    m := MarkedUpdateIsReported(later, CheckAndReboot(env, w, c).world, b, micros,
                                SystemVersion(w.apps, Updates(r.apps)).value);
  }

  /** The report is made once: while the clocks do not allow it, nothing changes, and once it is made nothing is
      pending, nor will be after a restart if the mark was removed without a fault. */
  lemma ReportIsMadeOnce(env: Env, d: Driver, start: Instant, c: CycleInput)
    ensures var t := TryReportWait(d, start, c);
            var m := t.world.store.durable;
            if RebootReport(d.pendingReport, start, c.now) == [] then t == d
            else
              && t.pendingReport == None
              && (c.removeFaults == NO_FAULTS ==>
                    "update_finish_time" !in m && "target_version" !in m && PendingReport(env, Store(m, m)) == None)
  {
    MarkKeys();
  }
}
