/** A history in which a plan ends up in durable storage with a time at which it was never seen. */
module TornPlan {
  import opened Wrappers
  import opened MachineInts
  import opened Clock
  import opened Protocol
  import opened Storage
  import opened CheckContext
  import opened AppSet
  import opened RequestBuilder
  import opened Trace
  import opened UpdateFlow
  import opened ClientRun
  import opened Observers
  import opened Bookkeeping
  import Histories
  import InstallResults
  import Version

  const APP := App("app", [1, 0, 0, 0], None, NO_COHORT, ClientRegulatedByDate(None), map[])
  const PARAMS := RequestParams(ScheduledTask, true, false, false)
  const UPDATE := ResponseApp("app", NO_COHORT, Some(UpdateCheckResponse(StatusOk, Some("2"))))
  const ANSWER := Response(None, [UPDATE])
  const ASKED := AttemptInput(0, RequestInput(0, Responded(true, 200, None, Parsed(ANSWER)), NO_FAULTS), 0, 0)
  const UNBUILT := RequestInput(0, BuildFailed(JsonFails), NO_FAULTS)
  const NOW := ComplexTime(0, 0)
  const TIMING := CheckTiming(Wall(0), None)

  function InstallAll(r: Response): InstallOutcome {
    InstallOutcome(0, seq(|AppsWithUpdate(r.apps)|, k => Installed), [])
  }

  /** A check that is offered an update, installs it, and cannot build its reports. */
  function CheckOf(planId: string, start: SystemTime, faults: SeenFaults): CheckInput {
    CheckInput(NOW, 0, Attempts(ASKED, ASKED, ASKED), Some(Plan(planId)), UpdateOk, start, faults, InstallAll, start,
               NO_FAULTS, false, NOW, NO_FAULTS, NO_FAULTS, EventInputs(UNBUILT, UNBUILT, UNBUILT))
  }

  function CycleOf(check: CheckInput): CycleInput {
    CycleInput(NOW, NO_FAULTS, TIMING, TimerFired, CheckOk(PARAMS), check, [], [],
               RebootInput(false, TIMING, [], false))
  }

  function See(seen: set<(string, Option<i64>)>, a: Act): set<(string, Option<i64>)> {
    if a.FirstSeen? then seen + {(a.planId, CheckedMicros(a.now))} else seen
  }

  lemma {:induction false} SeeFolds(log: seq<Act>)
    ensures Fold(See, {}, log) == Histories.SeenIn(log)
  {
    hide CheckedMicros;
    if log != [] {
      SeeFolds(log[..|log| - 1]);
    }
  }

  /** Nothing that matters here has changed. */
  ghost predicate Same(w: World, v: World) {
    && PairIn(v.store.cached) == PairIn(w.store.cached)
    && v.context.state.serverDictatedPollInterval == w.context.state.serverDictatedPollInterval
    && v.apps == w.apps
    && Fold(See, {}, v.log) == Fold(See, {}, w.log)
  }

  lemma UnbuiltReport(
    env: Env, w: World, event: Event, apps: seq<App>, versions: NextVersions, d: Option<Duration>)
    ensures Same(w, ReportEvent(env, w, PARAMS, event, apps, 0, versions, d, UNBUILT))
    ensures ReportEvent(env, w, PARAMS, event, apps, 0, versions, d, UNBUILT).store == w.store
  {
    hide Fold, RequestOf, EventOps, CheckedMicros;
    EmitFolds(See, {});
  }

  lemma UnbuiltInstalls(
    env: Env, w: World, apps: seq<App>, results: seq<AppInstallResult>, d: Option<Duration>, i: CheckInput)
    requires i.events == EventInputs(UNBUILT, UNBUILT, UNBUILT) && i.sessionId == 0
    ensures Same(w, ReportInstalls(env, w, PARAMS, apps, ANSWER, results, d, i))
  {
    hide Fold, RequestOf, ReportEvent, LostEvents, InstallOps, InstalledApps, VersionsOf, AppsWithUpdate, CheckedMicros;
    EmitFolds(See, {});
    var updates := AppsWithUpdate(ANSWER.apps);
    var ops := InstallOps(apps, updates, results, d);
    var s := DoRequest(w, ForEvent, RequestOf(env, PARAMS, ops, i.sessionId, i.events.installs.requestId),
                       i.events.installs);
    LostEventsAreReporting(ops);
    EmitAllUnseen(See, {}, s.world, LostEvents(ops));
    UnbuiltReport(env, EmitAll(s.world, LostEvents(ops)), SuccessEvent(UpdateComplete),
                  InstalledApps(apps, updates, results), VersionsOf(updates), d);
  }

  lemma SamePairAfterFinish(w: World, finish: SystemTime, versions: NextVersions)
    ensures Same(w, RecordFinish(w, finish, versions, NO_FAULTS))
  {
    hide Fold, CONTEXT_KEYS, CheckedMicros, RecordFinish;
    KeysDiffer();
    FinishStored(w, finish, versions, NO_FAULTS, INSTALL_PLAN_ID);
    FinishStored(w, finish, versions, NO_FAULTS, UPDATE_FIRST_SEEN_TIME);
    FinishShows(w, finish, versions);
  }

  lemma FinishShows(w: World, finish: SystemTime, versions: NextVersions)
    ensures var v := RecordFinish(w, finish, versions, NO_FAULTS);
            v.context == w.context && v.apps == w.apps && Fold(See, {}, v.log) == Fold(See, {}, w.log)
  {
    hide Fold, CheckedMicros;
    EmitFolds(See, {});
  }

  lemma Finishing(w: World, plan: Plan, outcome: InstallOutcome, since: SystemTime, i: CheckInput)
    requires |outcome.results| == CountUpdates(ANSWER.apps) && NoAppsFailed(outcome.results)
    requires i.finishFaults == NO_FAULTS && !i.rebootNeeded
    ensures var s := FinishInstall(w, plan, ANSWER, outcome, since, i);
            Same(w, s.world) && s.value.Success? && s.value.value.1 == NotNeeded
  {
    hide Fold, RecordFinish, WalkResults, ErrorsOf, VersionsOf, AppsWithUpdate, CheckedMicros, CountUpdates;
    EmitFolds(See, {});
    InstallResults.ErrorsAreTheFailures(outcome.results);
    var w1 := if since <= i.installFinish
              then Emit(w, Report(SuccessfulUpdateFromFirstSeen(i.installFinish - since))) else w;
    SamePairAfterFinish(w1, i.installFinish, VersionsOf(AppsWithUpdate(ANSWER.apps)));
  }

  /** The plan was recorded, well or badly. */
  ghost predicate Recorded(w: World, v: World, planId: string, now: SystemTime, faults: SeenFaults) {
    && PairIn(v.store.cached) == PairIn(StorePlan(w.store, planId, now, faults).0.cached)
    && v.context.state.serverDictatedPollInterval == w.context.state.serverDictatedPollInterval
    && v.apps == w.apps
    && Fold(See, {}, v.log) == Fold(See, {}, w.log) + {(planId, CheckedMicros(now))}
  }

  lemma Recording(w: World, planId: string, now: SystemTime, faults: SeenFaults)
    requires w.store.GetString(INSTALL_PLAN_ID) != Some(planId)
    ensures Recorded(w, RecordFirstSeen(w, planId, now, faults).world, planId, now, faults)
  {
    hide Fold, StorePlan, CheckedMicros, PairIn;
    EmitFolds(See, {});
  }

  lemma Installing(env: Env, w: World, apps: seq<App>, planId: string, start: SystemTime, faults: SeenFaults)
    requires w.store.GetString(INSTALL_PLAN_ID) != Some(planId)
    ensures var s := InstallUpdate(env, w, PARAMS, apps, Plan(planId), ANSWER, CheckOf(planId, start, faults));
            Recorded(w, s.world, planId, start, faults) && s.value.Success? && s.value.value.1 == NotNeeded
  {
    hide Fold, ReportEvent, RecordFirstSeen, ReportInstalls, FinishInstall, VersionsOf, AppsWithUpdate, NoAppsFailed,
      StorePlan, CheckedMicros, PairIn;
    EmitFolds(See, {});
    var i := CheckOf(planId, start, faults);
    var versions := VersionsOf(AppsWithUpdate(ANSWER.apps));
    var w1 := Emit(w, ChangeTo(InstallingUpdate));
    var started := SuccessEvent(UpdateDownloadStarted);
    UnbuiltReport(env, w1, started, apps, versions, None);
    var w2 := ReportEvent(env, w1, PARAMS, started, apps, 0, versions, None, UNBUILT);
    Recording(w2, planId, start, faults);
    var seen := RecordFirstSeen(w2, planId, start, faults);
    var outcome := InstallAll(ANSWER);
    EmitAllUnseen(See, {}, seen.world, ProgressActs(outcome.progress));
    var w4 := Emit(EmitAll(seen.world, ProgressActs(outcome.progress)),
                   PerformedInstall(Plan(planId), outcome.installResult, outcome.results));
    var w5 := ReportInstallDuration(w4, start, start, NoAppsFailed(outcome.results));
    var d := InstallDuration(start, start);
    UnbuiltInstalls(env, w5, apps, outcome.results, d, i);
    CountAppsWithUpdate(ANSWER.apps);
    assert NoAppsFailed(outcome.results) by { NoneFails(ANSWER); }
    var w6 := ReportInstalls(env, w5, PARAMS, apps, ANSWER, outcome.results, d, i);
    Finishing(w6, Plan(planId), outcome, seen.value, i);
  }

  lemma NoneFails(r: Response)
    ensures NoAppsFailed(InstallAll(r).results)
  {
  }

  lemma AnsweredAtOnce(env: Env, w: World, ops: seq<Op>, planId: string, start: SystemTime, faults: SeenFaults)
    requires w.context.state.serverDictatedPollInterval == None
    ensures var s := AttemptLoop(env, w, PARAMS, ops, CheckOf(planId, start, faults), 1);
            Same(w, s.world) && s.world.store == w.store && s.value == (1, Success(Parsed(ANSWER)))
  {
    hide Fold, RequestOf, PairIn, CheckedMicros, CheckOf;
    EmitFolds(See, {});
    assert CheckOf(planId, start, faults).attempts.At(1) == ASKED by { ChecksAsk(planId, start, faults); }
  }

  lemma ChecksAsk(planId: string, start: SystemTime, faults: SeenFaults)
    ensures CheckOf(planId, start, faults).attempts == Attempts(ASKED, ASKED, ASKED)
  {
  }

  lemma OneUpdate()
    ensures AppsWithUpdate(ANSWER.apps) == [UPDATE]
  {
    assert ANSWER.apps[..0] == [];
  }

  lemma Performing(env: Env, w: World, planId: string, start: SystemTime, faults: SeenFaults)
    requires w.context.state.serverDictatedPollInterval == None
    requires w.store.GetString(INSTALL_PLAN_ID) != Some(planId)
    ensures var s := PerformUpdateCheck(env, w, PARAMS, w.apps, CheckOf(planId, start, faults));
            Recorded(w, s.world, planId, start, faults) && s.value.Success? && s.value.value.1 == NotNeeded
  {
    hide Fold, AttemptLoop, InstallUpdate, VersionsOf, AppsWithUpdate, CheckOps, StorePlan, CheckedMicros, PairIn;
    EmitFolds(See, {});
    var i := CheckOf(planId, start, faults);
    var w2 := ReportCheckInterval(Emit(w, ChangeTo(CheckingForUpdates(PARAMS.source))), i.checkTime, PARAMS.source);
    AnsweredAtOnce(env, w2, CheckOps(w.apps), planId, start, faults);
    var s := AttemptLoop(env, w2, PARAMS, CheckOps(w.apps), i, 1);
    var w3 := Emit(s.world, Report(RequestsPerCheck(1, true)));
    OneUpdate();
    var w4 := Emit(Emit(w3, Yield(OmahaServerResponse(ANSWER))), Query(UpdateCanStart(Plan(planId), UpdateOk)));
    Installing(env, w4, w.apps, planId, start, faults);
  }

  /** The whole check, after which everything is durable. */
  ghost predicate Checked(w: World, v: World, planId: string, start: SystemTime, faults: SeenFaults) {
    && PairIn(v.store.cached) == PairIn(StorePlan(w.store, planId, start, faults).0.cached)
    && v.context.state.serverDictatedPollInterval == None
    && IdsFree(v.apps)
    && v.store.durable == v.store.cached
    && Fold(See, {}, v.log) == Fold(See, {}, w.log) + {(planId, CheckedMicros(start))}
  }

  lemma SamePairAfterPersisting(env: Env, w: World)
    requires IdsFree(w.apps)
    ensures var v := PersistData(env, w, NO_FAULTS);
            && Same(w, v) && v.store.durable == v.store.cached
  {
    hide Fold, PersistContext, PersistApps, RESERVED, CONTEXT_KEYS, CheckedMicros;
    EmitFolds(See, {});
    KeysDiffer();
    KeysReserved();
    var s := PersistContext(w.store, w.context, NO_FAULTS);
    PersistContextForeign(w.store, w.context, NO_FAULTS);
    PersistAppsForeign(s, w.apps, env.codec, NO_FAULTS, INSTALL_PLAN_ID);
    PersistAppsForeign(s, w.apps, env.codec, NO_FAULTS, UPDATE_FIRST_SEEN_TIME);
    assert SameAt(s.cached, w.store.cached, INSTALL_PLAN_ID);
    assert SameAt(s.cached, w.store.cached, UPDATE_FIRST_SEEN_TIME);
  }

  lemma SamePairAfterTaking(w: World, p: Performed, i: CheckInput)
    requires IdsFree(w.apps)
    ensures var v := Announce(TakeResult(w, p, i), ResultOf(p));
            && PairIn(v.store.cached) == PairIn(w.store.cached) && IdsFree(v.apps)
            && v.context.state.serverDictatedPollInterval == w.context.state.serverDictatedPollInterval
            && Fold(See, {}, v.log) == Fold(See, {}, w.log)
  {
    hide Fold, RESERVED, CONTEXT_KEYS, InstallVerdict, UpdateApps, WrapU32, WrapI64, WrapU64, ReasonOf, CheckedMicros,
      Store.Set, Store.Remove;
    EmitFolds(See, {});
    KeysDiffer();
    TakeResultStored(w, p, i, INSTALL_PLAN_ID);
    TakeResultStored(w, p, i, UPDATE_FIRST_SEEN_TIME);
    if p.Success? {
      UpdateAppsFree(w.apps, p.value.0);
    }
  }

  lemma Checking(env: Env, w: World, planId: string, start: SystemTime, faults: SeenFaults)
    requires w.context.state.serverDictatedPollInterval == None && IdsFree(w.apps)
    requires w.store.GetString(INSTALL_PLAN_ID) != Some(planId)
    ensures var s := StartUpdateCheck(env, w, PARAMS, CheckOf(planId, start, faults));
            Checked(w, s.world, planId, start, faults) && s.value == NotNeeded
  {
    hide Fold, PerformUpdateCheck, TakeResult, PersistData, Announce, RESERVED, StorePlan, CheckedMicros, PairIn;
    var i := CheckOf(planId, start, faults);
    Performing(env, w, planId, start, faults);
    var s := PerformUpdateCheck(env, w, PARAMS, w.apps, i);
    SamePairAfterTaking(s.world, s.value, i);
    SamePairAfterPersisting(env, Announce(TakeResult(s.world, s.value, i), ResultOf(s.value)));
  }

  lemma Waiting(w: World, check: CheckInput)
    ensures Same(w, AwaitCheck(w, CycleOf(check))) && AwaitCheck(w, CycleOf(check)).store == w.store
  {
    hide Fold, PairIn, CheckedMicros;
    EmitFolds(See, {});
  }

  /** One turn of the loop in which nobody asks for anything. */
  lemma Turning(env: Env, d: Driver, planId: string, start: SystemTime, faults: SeenFaults)
    requires d.pendingReport.None? && !d.halted
    requires d.world.context.state.serverDictatedPollInterval == None && IdsFree(d.world.apps)
    requires d.world.store.GetString(INSTALL_PLAN_ID) != Some(planId)
    ensures var e := RunCycle(env, d, 0, CycleOf(CheckOf(planId, start, faults)));
            Checked(d.world, e.world, planId, start, faults) && e.pendingReport.None? && !e.halted
  {
    hide Fold, AwaitCheck, StartUpdateCheck, RESERVED, StorePlan, CheckedMicros, PairIn, CheckOf;
    EmitFolds(See, {});
    var c := CycleOf(CheckOf(planId, start, faults));
    Waiting(d.world, c.check);
    var w := AwaitCheck(d.world, c);
    var alone := w.(log := []);
    Checking(env, alone, planId, start, faults);
    var s := StartUpdateCheck(env, alone, PARAMS, c.check);
    FoldEmpty(See, {});
    FoldConcat(See, {}, w.log, s.world.log);
    FromElsewhere(w.log, s.world.log);
    assert Merge(s.world.log, Served([]), []) == s.world.log by { NothingServed(s.world.log); }
  }

  lemma NothingServed(log: seq<Act>)
    ensures Merge(log, Served([]), []) == log
  {
  }

  /** What is seen is added to what was seen before. */
  lemma {:induction false} FromElsewhere(before: seq<Act>, log: seq<Act>)
    ensures Fold(See, Fold(See, {}, before), log) == Fold(See, {}, before) + Fold(See, {}, log)
  {
    hide CheckedMicros;
    if log != [] {
      FromElsewhere(before, log[..|log| - 1]);
    }
  }

  const TORN := SeenFaults(Faults({UPDATE_FIRST_SEEN_TIME}, false), Faults({INSTALL_PLAN_ID}, false))
  const FIRST := CheckOf("A", 0, NO_SEEN_FAULTS)
  const SECOND := CheckOf("B", FromSecs(60), TORN)
  const LIFE := BootInput([APP], 0, [CycleOf(FIRST), CycleOf(SECOND)], OfItself)

  lemma FirstPlan(s: Store)
    ensures PairIn(StorePlan(s, "A", 0, NO_SEEN_FAULTS).0.cached) == Some(("A", Some(0)))
  {
    KeysDiffer();
  }

  /** The torn recording of plan B leaves it with the time of plan A. */
  lemma SecondPlan(s: Store)
    requires PairIn(s.cached) == Some(("A", Some(0)))
    ensures PairIn(StorePlan(s, "B", FromSecs(60), TORN).0.cached) == Some(("B", Some(0)))
  {
    KeysDiffer();
  }

  lemma Starting(env: Env)
    ensures var w := Boot(env, Histories.NEW_DEVICE, [APP]);
            && w.context.state.serverDictatedPollInterval == None && w.apps == [APP]
            && w.store == Store(map[], map[]) && Fold(See, {}, w.log) == {}
            && PendingReport(env, w.store).None?
  {
    hide Fold;
    EmitFolds(See, {});
    FoldEmpty(See, {});
  }

  lemma AppIsSound()
    ensures AllValid([APP]) && IdsFree([APP]) && Histories.SoundBoot(LIFE)
  {
    assert Version.Pad([0])[0] == 0 && APP.version[0] == 1;
    assert |APP.id| == 3;
    assert |LAST_UPDATE_TIME| == 16 && |SERVER_DICTATED_POLL_INTERVAL| == 29;
    assert |CONSECUTIVE_FAILED_UPDATE_CHECKS| == 32 && |INSTALL_PLAN_ID| == 15 && |UPDATE_FIRST_SEEN_TIME| == 22;
    assert |UPDATE_FINISH_TIME| == 18 && |TARGET_VERSION| == 14 && |CONSECUTIVE_FAILED_INSTALL_ATTEMPTS| == 35;
  }

  lemma TwoTurns(env: Env, d: Driver, first: CycleInput, second: CycleInput)
    requires !d.halted && !RunCycle(env, d, 0, first).halted
    ensures RunCycles(env, d, 0, [first, second]) == RunCycle(env, RunCycle(env, d, 0, first), 0, second)
  {
    hide RunCycle;
    var e := RunCycle(env, d, 0, first);
    assert [first, second][1..] == [second];
    assert RunCycles(env, e, 0, [second]) == RunCycle(env, e, 0, second) by {
      assert [second][1..] == [];
    }
  }

  /** On a new device, plan A is seen at the epoch and recorded; a minute later the recording of plan B is
      torn, and the check commits.  Plan B is then durable with the time of plan A, at which it was never
      seen. */
  lemma TornHistory(env: Env)
    ensures Histories.SoundBoot(LIFE)
    ensures var v := History(env, Histories.NEW_DEVICE, [LIFE]);
            && PairIn(v.store.durable) == Some(("B", Some(0)))
            && Histories.SeenIn(v.log) == {("A", Some(0)), ("B", Some(60_000_000))}
            && !Paired(Histories.SeenIn(v.log), v.store.durable)
  {
    hide Fold, Boot, RunCycle, RESERVED, StorePlan, CheckOf;
    AppIsSound();
    Starting(env);
    var w := Boot(env, Histories.NEW_DEVICE, [APP]);
    var d := Driver(w, None, false);
    Turning(env, d, "A", 0, NO_SEEN_FAULTS);
    FirstPlan(w.store);
    var e := RunCycle(env, d, 0, CycleOf(FIRST));
    Turning(env, e, "B", FromSecs(60), TORN);
    SecondPlan(e.world.store);
    var f := RunCycle(env, e, 0, CycleOf(SECOND));
    SeeFolds(f.world.log);
    TwoTurns(env, d, CycleOf(FIRST), CycleOf(SECOND));
    assert [] + f.world.log == f.world.log;
  }
}
